/**
 What the handles and values of a monitor tree stand for (state_monitor/src/lib.rs:154-284).

 To its users a monitor is a path of ids, and a value is a path and a name. A book that keeps nothing
 but these, without nodes, maps of children or counts, is all that the operations of module
 StateMonitor amount to.
 */
module MonitorPaths {
  import opened Options
  import opened StateMonitor

  type Path = seq<MonitorId>

  datatype Named = Named(path: Path, name: string)

  datatype Book = Book(handles: map<nat, Path>, values: map<nat, Named>)

  /** Somebody holds a monitor or a value at the path or below it. */
  predicate Alive(b: Book, path: Path) {
    (exists h :: h in b.handles && path <= b.handles[h]) || (exists v :: v in b.values && path <= b.values[v].path)
  }

  function Enter(b: Book, op: Op): Book {
    match op
    case MakeChildOf(on, id, h) =>
      if on in b.handles && h !in b.handles then b.(handles := b.handles[h := b.handles[on] + [id]]) else b
    case Clone(on, h) =>
      if on in b.handles && h !in b.handles then b.(handles := b.handles[h := b.handles[on]]) else b
    case LocateFrom(on, path, h) =>
      if on in b.handles && h !in b.handles && Alive(b, b.handles[on] + path)
      then b.(handles := b.handles[h := b.handles[on] + path]) else b
    case Drop(on) => b.(handles := b.handles - {on})
    case MakeValue(on, name, v) =>
      if on in b.handles && v !in b.values then b.(values := b.values[v := Named(b.handles[on], name)]) else b
    case CloneValue(v, copy) =>
      if v in b.values && copy !in b.values then b.(values := b.values[copy := b.values[v]]) else b
    case DropValue(v) => b.(values := b.values - {v})
  }

  function BookOf(h: nat, run: seq<Op>): Book {
    if run == [] then Book(map[h := []], map[]) else Enter(BookOf(h, run[..|run| - 1]), run[|run| - 1])
  }

  /** The node is there and is the one at the path. */
  predicate Stands(s: Tree, n: nat, path: Path)
    requires ParentsOk(s)
  {
    n in s.nodes && PathTo(s, n) == path
  }

  ghost predicate HandlesAgree(s: Tree, b: Book)
    requires ParentsOk(s)
  {
    && (forall h :: User(h) in s.refs <==> h in b.handles)
    && (forall h :: h in b.handles ==> Stands(s, s.refs[User(h)], b.handles[h]))
  }

  ghost predicate ValuesAgree(s: Tree, b: Book)
    requires ParentsOk(s)
  {
    && (forall v :: v in s.vals <==> v in b.values)
    && (forall v :: v in b.values ==> Stands(s, s.vals[v].node, b.values[v].path) && s.vals[v].name == b.values[v].name)
  }

  // ---------------------------------------------------------------- paths

  /** Nodes never change. */
  predicate SameNodes(s: Tree, t: Tree) {
    forall n :: n in s.nodes && n in t.nodes ==> t.nodes[n] == s.nodes[n]
  }

  lemma {:induction false} PathFrame(s: Tree, t: Tree, n: nat)
    requires ParentsOk(s) && ParentsOk(t) && SameNodes(s, t) && n in s.nodes && n in t.nodes
    ensures PathTo(t, n) == PathTo(s, n)
    decreases n
  {
    if s.nodes[n].parent.Some? { PathFrame(s, t, s.nodes[n].parent.value); }
  }

  lemma {:induction false} LocateConcat(s: Tree, n: nat, p: Path, q: Path)
    ensures Locate(s, n, p + q) == match Locate(s, n, p) case Some(m) => Locate(s, m, q) case None => None
    decreases p
  {
    if p == [] {
      assert p + q == q;
    } else {
      assert (p + q)[1..] == p[1..] + q;
      if Key(n, p[0]) in s.children { LocateConcat(s, s.children[Key(n, p[0])].node, p[1..], q); }
    }
  }

  lemma {:induction false} AbovePrefix(s: Tree, n: nat, m: nat)
    requires ParentsOk(s) && m in s.nodes && n in s.nodes && Above(s, n, m)
    ensures PathTo(s, n) <= PathTo(s, m)
    decreases m
  {
    if n != m { AbovePrefix(s, n, s.nodes[m].parent.value); }
  }

  lemma HolderIsAlive(s: Tree, b: Book, r: Ref, path: Path)
    requires ParentsOk(s) && HandlesAgree(s, b) && ValuesAgree(s, b) && ValueRefsOk(s) && ValsOk(s)
    requires r in s.refs && !r.ParentField? && s.refs[r] in s.nodes && path <= PathTo(s, s.refs[r])
    ensures Alive(b, path)
  {
    match r
    case User(h) => assert path <= b.handles[h];
    case OfValue(v) => assert path <= b.values[v].path;
  }

  lemma PrefixIsLocated(s: Tree, m: nat, path: Path)
    requires ShapeOk(s) && m in s.nodes && path <= PathTo(s, m)
    ensures Locate(s, 0, path).Some?
  {
    var whole := PathTo(s, m);
    LocatePathTo(s, m);
    LocateConcat(s, 0, path, whole[|path|..]);
    assert whole == path + whole[|path|..];
  }

  /** `locate` finds a node exactly where somebody holds a monitor or a value at or below it. */
  lemma LocatedIffAlive(s: Tree, b: Book, path: Path)
    requires Inv(s, {}) && ValueRefsOk(s) && HandlesAgree(s, b) && ValuesAgree(s, b)
    requires 0 in s.nodes && s.nodes[0].parent.None?
    ensures Locate(s, 0, path).Some? <==> Alive(b, path)
    ensures Locate(s, 0, path).Some? ==> Stands(s, Locate(s, 0, path).value, path)
  {
    if Locate(s, 0, path).Some? {
      LocateIsPathTo(s, path);
      var n := Locate(s, 0, path).value;
      var r := SomeoneBelow(s, n);
      AbovePrefix(s, n, s.refs[r]);
      HolderIsAlive(s, b, r, path);
    }
    if h :| h in b.handles && path <= b.handles[h] {
      PrefixIsLocated(s, s.refs[User(h)], path);
    } else if v :| v in b.values && path <= b.values[v].path {
      PrefixIsLocated(s, s.vals[v].node, path);
    }
  }

  // ---------------------------------------------------------------- each operation

  /** Handles and values that stay refer to the nodes they referred to. */
  lemma StandsFrame(s: Tree, t: Tree, n: nat, path: Path)
    requires ParentsOk(s) && ParentsOk(t) && SameNodes(s, t) && Stands(s, n, path) && n in t.nodes
    ensures Stands(t, n, path)
  {
    PathFrame(s, t, n);
  }

  lemma HandlesFrame(s: Tree, t: Tree, b: Book, c: Book)
    requires ParentsOk(s) && ParentsOk(t) && SameNodes(s, t) && HandlesAgree(s, b)
    requires forall h :: User(h) in t.refs <==> h in c.handles
    requires forall h :: h in c.handles ==>
      || Stands(t, t.refs[User(h)], c.handles[h])
      || (h in b.handles && c.handles[h] == b.handles[h]
          && t.refs[User(h)] == s.refs[User(h)] && s.refs[User(h)] in t.nodes)
    ensures HandlesAgree(t, c)
  {
    forall h | h in c.handles ensures Stands(t, t.refs[User(h)], c.handles[h]) {
      if !Stands(t, t.refs[User(h)], c.handles[h]) { StandsFrame(s, t, s.refs[User(h)], b.handles[h]); }
    }
  }

  lemma ValuesFrame(s: Tree, t: Tree, b: Book, c: Book)
    requires ParentsOk(s) && ParentsOk(t) && SameNodes(s, t) && ValuesAgree(s, b)
    requires forall v :: v in t.vals <==> v in c.values
    requires forall v :: v in c.values ==> t.vals[v].node in t.nodes
    requires forall v :: v in c.values ==>
      || (v in b.values && c.values[v] == b.values[v] && t.vals[v] == s.vals[v])
      || (Stands(t, t.vals[v].node, c.values[v].path) && t.vals[v].name == c.values[v].name)
    ensures ValuesAgree(t, c)
  {
    forall v | v in c.values
      ensures Stands(t, t.vals[v].node, c.values[v].path) && t.vals[v].name == c.values[v].name
    {
      if !Stands(t, t.vals[v].node, c.values[v].path) { StandsFrame(s, t, s.vals[v].node, b.values[v].path); }
    }
  }

  /** One more handle, to a node that stands at `path`; all else stays. */
  lemma HandleAdded(s: Tree, t: Tree, b: Book, h: nat, path: Path)
    requires Inv(s, {}) && Inv(t, {}) && SameNodes(s, t) && HandlesAgree(s, b) && ValuesAgree(s, b)
    requires t.vals == s.vals && h !in b.handles
    requires forall g :: User(g) in t.refs <==> User(g) in s.refs || g == h
    requires forall g :: User(g) in s.refs ==> t.refs[User(g)] == s.refs[User(g)]
    requires Stands(t, t.refs[User(h)], path)
    ensures var c := b.(handles := b.handles[h := path]); HandlesAgree(t, c) && ValuesAgree(t, c)
  {
    var c := b.(handles := b.handles[h := path]);
    forall g | g in b.handles ensures s.refs[User(g)] in t.nodes { assert t.refs[User(g)] in t.nodes; }
    forall v | v in s.vals ensures t.vals[v].node in t.nodes { assert OfValue(v) in t.refs; }
    HandlesFrame(s, t, b, c);
    ValuesFrame(s, t, b, c);
  }

  lemma ChildFrame(s: Tree, p: nat, id: MonitorId, h: nat)
    requires EntriesOk(s) && ParentsOk(s) && HasEntry(s, p) && User(h) !in s.refs
    requires Key(p, id) in s.children ==> HasEntry(s, s.children[Key(p, id)].node)
    ensures var t := MakeChild(s, p, id, h);
      && SameNodes(s, t) && t.vals == s.vals && p in t.nodes
      && (forall g :: User(g) in t.refs <==> User(g) in s.refs || g == h)
      && (forall g :: User(g) in s.refs ==> t.refs[User(g)] == s.refs[User(g)])
      && t.refs[User(h)] in t.nodes && t.nodes[t.refs[User(h)]] == Node(id, Some(p))
  {
  }

  lemma ChildAgrees(s: Tree, b: Book, on: nat, id: MonitorId, h: nat)
    requires Inv(s, {}) && HandlesAgree(s, b) && ValuesAgree(s, b) && on in b.handles && h !in b.handles
    ensures var t, c := Step(s, {}, MakeChildOf(on, id, h)), Enter(b, MakeChildOf(on, id, h));
      HandlesAgree(t, c) && ValuesAgree(t, c)
  {
    var p := s.refs[User(on)];
    MakeChildInv(s, {}, p, id, h);
    ChildFrame(s, p, id, h);
    var t := MakeChild(s, p, id, h);
    PathFrame(s, t, p);
    assert Stands(t, t.refs[User(h)], b.handles[on] + [id]);
    HandleAdded(s, t, b, h, b.handles[on] + [id]);
  }

  /** A clone, or what `locate` has found. */
  lemma BorrowAgrees(s: Tree, b: Book, n: nat, h: nat, path: Path)
    requires Inv(s, {}) && HandlesAgree(s, b) && ValuesAgree(s, b) && h !in b.handles && Stands(s, n, path)
    ensures var t, c := Borrow(s, {}, n, h), b.(handles := b.handles[h := path]);
      HandlesAgree(t, c) && ValuesAgree(t, c)
  {
    var t := Borrow(s, {}, n, h);
    StandsFrame(s, t, n, path);
    HandleAdded(s, t, b, h, path);
  }

  lemma LocateFinds(s: Tree, b: Book, on: nat, path: Path)
    requires Inv(s, {}) && HandlesAgree(s, b) && ValuesAgree(s, b) && on in b.handles && ValueRefsOk(s)
    ensures var found, whole := Locate(s, s.refs[User(on)], path), b.handles[on] + path;
      (found.Some? <==> Alive(b, whole)) && (found.Some? ==> Stands(s, found.value, whole))
  {
    LocatePathTo(s, s.refs[User(on)]);
    LocateConcat(s, 0, b.handles[on], path);
    assert s.nodes[0].parent.None?;
    LocatedIffAlive(s, b, b.handles[on] + path);
  }

  lemma LocateStep(s: Tree, on: nat, path: Path, h: nat)
    requires Inv(s, {}) && Enabled(s, LocateFrom(on, path, h))
    ensures var found := Locate(s, s.refs[User(on)], path);
      && (found.Some? ==> found.value in s.nodes)
      && Step(s, {}, LocateFrom(on, path, h)) == if found.Some? then Borrow(s, {}, found.value, h) else s
  {
    LocateLive(s, s.refs[User(on)], path);
  }

  lemma EnterLocate(b: Book, on: nat, path: Path, h: nat)
    requires on in b.handles && h !in b.handles
    ensures Enter(b, LocateFrom(on, path, h)) ==
      if Alive(b, b.handles[on] + path) then b.(handles := b.handles[h := b.handles[on] + path]) else b
  {
  }

  lemma LocateAgrees(s: Tree, b: Book, on: nat, path: Path, h: nat)
    requires Inv(s, {}) && HandlesAgree(s, b) && ValuesAgree(s, b) && ValueRefsOk(s)
    requires on in b.handles && h !in b.handles
    ensures var t, c := Step(s, {}, LocateFrom(on, path, h)), Enter(b, LocateFrom(on, path, h));
      HandlesAgree(t, c) && ValuesAgree(t, c)
  {
    LocateFinds(s, b, on, path);
    LocateStep(s, on, path, h);
    EnterLocate(b, on, path, h);
    var found := Locate(s, s.refs[User(on)], path);
    if found.Some? { BorrowAgrees(s, b, found.value, h, b.handles[on] + path); }
  }

  /** Dropping `r` leaves the other handles and all values where they are. */
  ghost predicate Shed(s: Tree, t: Tree, r: Ref) {
    && SameNodes(s, t) && t.vals == s.vals && ParentsOk(t)
    && (forall h :: User(h) in t.refs <==> User(h) in s.refs && User(h) != r)
    && (forall h :: User(h) in t.refs ==> t.refs[User(h)] == s.refs[User(h)] && s.refs[User(h)] in t.nodes)
    && (forall v :: v in t.vals ==> t.vals[v].node in t.nodes)
  }

  lemma ShrunkIsShed(s: Tree, t: Tree, r: Ref)
    requires Inv(t, {}) && Shrunk(s, t, {}, r)
    ensures Shed(s, t, r)
  {
    forall v | v in t.vals ensures t.vals[v].node in t.nodes { assert OfValue(v) in t.refs; }
  }

  lemma ShedHandles(s: Tree, t: Tree, b: Book, c: Book, r: Ref)
    requires ParentsOk(s) && Shed(s, t, r) && HandlesAgree(s, b)
    requires c.handles == if r.User? then b.handles - {r.handle} else b.handles
    ensures HandlesAgree(t, c)
  {
    HandlesFrame(s, t, b, c);
  }

  lemma ShedValues(s: Tree, t: Tree, b: Book, c: Book, r: Ref)
    requires ParentsOk(s) && Shed(s, t, r) && ValuesAgree(s, b) && b.values == c.values
    ensures ValuesAgree(t, c)
  {
    ValuesFrame(s, t, b, c);
  }

  lemma DropSheds(s: Tree, on: nat)
    requires Inv(s, {}) && User(on) in s.refs
    ensures Shed(s, Step(s, {}, Drop(on)), User(on))
  {
    assert Droppable(s, {}, User(on));
    ReleaseFrame(s, {}, User(on));
    ShrunkIsShed(s, Step(s, {}, Drop(on)), User(on));
  }

  lemma DropAgrees(s: Tree, b: Book, on: nat, t: Tree)
    requires ParentsOk(s) && HandlesAgree(s, b) && ValuesAgree(s, b) && Shed(s, t, User(on))
    ensures HandlesAgree(t, Enter(b, Drop(on))) && ValuesAgree(t, Enter(b, Drop(on)))
  {
    ShedHandles(s, t, b, Enter(b, Drop(on)), User(on));
    ShedValues(s, t, b, Enter(b, Drop(on)), User(on));
  }

  /** One more value, of the name and at the path. */
  lemma ValueAdded(s: Tree, t: Tree, b: Book, v: nat, slot: Slot, named: Named)
    requires ParentsOk(s) && ParentsOk(t) && HandlesAgree(s, b) && ValuesAgree(s, b) && v !in b.values
    requires t.nodes == s.nodes && t.refs == s.refs[OfValue(v) := slot.node] && t.vals == s.vals[v := slot]
    requires Stands(s, slot.node, named.path) && slot.name == named.name
    ensures var c := b.(values := b.values[v := named]); HandlesAgree(t, c) && ValuesAgree(t, c)
  {
    var c := b.(values := b.values[v := named]);
    StandsFrame(s, t, slot.node, named.path);
    HandlesFrame(s, t, b, c);
    ValuesFrame(s, t, b, c);
  }

  lemma ValueAgrees(s: Tree, b: Book, v: nat, slot: Slot, named: Named)
    requires Inv(s, {}) && HandlesAgree(s, b) && ValuesAgree(s, b) && v !in b.values && OfValue(v) !in s.refs
    requires Stands(s, slot.node, named.path) && slot.name == named.name
    ensures var t, c := KeepValue(s, {}, v, slot), b.(values := b.values[v := named]);
      HandlesAgree(t, c) && ValuesAgree(t, c)
  {
    ValueAdded(s, KeepValue(s, {}, v, slot), b, v, slot, named);
  }

  /** Out of its slot. */
  lemma ValueGone(s: Tree, b: Book, v: nat)
    requires ParentsOk(s) && ValuesAgree(s, b) && HandlesAgree(s, b)
    requires v in s.vals && s.vals[v] in s.values && s.values[s.vals[v]] > 0
    ensures var u, c := RemoveValue(s, v), b.(values := b.values - {v});
      ParentsOk(u) && HandlesAgree(u, b) && ValuesAgree(u, c)
  {
    var u, c := RemoveValue(s, v), b.(values := b.values - {v});
    forall n, path | Stands(s, n, path) ensures Stands(u, n, path) { StandsFrame(s, u, n, path); }
  }

  lemma DiscardSheds(s: Tree, v: nat)
    requires Inv(s, {}) && v in s.vals
    ensures s.vals[v] in s.values && s.values[s.vals[v]] > 0
    ensures Shed(RemoveValue(s, v), DiscardValue(s, {}, v), OfValue(v))
  {
    RemoveValueInv(s, {}, v);
    ReleaseFrame(RemoveValue(s, v), {}, OfValue(v));
    ShrunkIsShed(RemoveValue(s, v), DiscardValue(s, {}, v), OfValue(v));
  }

  lemma DropValueAgrees(s: Tree, b: Book, v: nat, t: Tree)
    requires ParentsOk(s) && HandlesAgree(s, b) && ValuesAgree(s, b)
    requires v in s.vals && s.vals[v] in s.values && s.values[s.vals[v]] > 0
    requires Shed(RemoveValue(s, v), t, OfValue(v))
    ensures HandlesAgree(t, Enter(b, DropValue(v))) && ValuesAgree(t, Enter(b, DropValue(v)))
  {
    ValueGone(s, b, v);
    ShedHandles(RemoveValue(s, v), t, b, Enter(b, DropValue(v)), OfValue(v));
    ShedValues(RemoveValue(s, v), t, b.(values := b.values - {v}), Enter(b, DropValue(v)), OfValue(v));
  }

  lemma GrowAgrees(s: Tree, b: Book, op: Op)
    requires Inv(s, {}) && ValueRefsOk(s) && HandlesAgree(s, b) && ValuesAgree(s, b) && Enabled(s, op)
    requires !op.Drop? && !op.DropValue?
    ensures HandlesAgree(Step(s, {}, op), Enter(b, op)) && ValuesAgree(Step(s, {}, op), Enter(b, op))
  {
    match op
    case MakeChildOf(on, id, h) => ChildAgrees(s, b, on, id, h);
    case Clone(on, h) => BorrowAgrees(s, b, s.refs[User(on)], h, b.handles[on]);
    case LocateFrom(on, path, h) => LocateAgrees(s, b, on, path, h);
    case MakeValue(on, name, v) =>
      ValueAgrees(s, b, v, Slot(s.refs[User(on)], name), Named(b.handles[on], name));
    case CloneValue(v, copy) => ValueAgrees(s, b, copy, s.vals[v], b.values[v]);
  }

  lemma StepAgrees(s: Tree, b: Book, op: Op)
    requires Inv(s, {}) && ValueRefsOk(s) && HandlesAgree(s, b) && ValuesAgree(s, b)
    ensures HandlesAgree(Step(s, {}, op), Enter(b, op)) && ValuesAgree(Step(s, {}, op), Enter(b, op))
  {
    if !Enabled(s, op) {
      NotEnabled(s, b, op);
    } else if op.Drop? {
      DropSheds(s, op.on);
      DropAgrees(s, b, op.on, Step(s, {}, op));
    } else if op.DropValue? {
      DiscardSheds(s, op.v);
      DropValueAgrees(s, b, op.v, Step(s, {}, op));
    } else {
      GrowAgrees(s, b, op);
    }
  }

  lemma NotEnabled(s: Tree, b: Book, op: Op)
    requires ParentsOk(s) && ValsOk(s) && ValueRefsOk(s) && HandlesAgree(s, b) && ValuesAgree(s, b) && !Enabled(s, op)
    ensures Enter(b, op) == b
  {
    match op
    case Drop(on) => assert b.handles - {on} == b.handles;
    case DropValue(v) => assert b.values - {v} == b.values;
    case MakeValue(_, _, v) => assert OfValue(v) in s.refs <==> v in s.vals;
    case CloneValue(_, copy) => assert OfValue(copy) in s.refs <==> copy in s.vals;
    case _ =>
  }

  // ---------------------------------------------------------------- runs

  lemma {:induction false} ExecAgrees(h: nat, run: seq<Op>)
    ensures HandlesAgree(Exec(h, run), BookOf(h, run)) && ValuesAgree(Exec(h, run), BookOf(h, run))
  {
    if run != [] {
      var before := run[..|run| - 1];
      ExecAgrees(h, before);
      ExecValueRefs(h, before);
      StepAgrees(Exec(h, before), BookOf(h, before), run[|run| - 1]);
    }
  }

  lemma NobodyWithoutRoot(s: Tree, b: Book, path: Path)
    requires ShapeOk(s) && HandlesAgree(s, b) && ValuesAgree(s, b) && 0 !in s.nodes
    ensures !Alive(b, path)
  {
    forall n ensures n !in s.nodes { if n in s.nodes { LocatePathTo(s, n); } }
  }

  lemma ExecAlive(h: nat, run: seq<Op>, path: Path)
    ensures var s := Exec(h, run); 0 in s.nodes && Locate(s, 0, path).Some? <==> Alive(BookOf(h, run), path)
  {
    var s, b := Exec(h, run), BookOf(h, run);
    ExecAgrees(h, run);
    ExecValueRefs(h, run);
    if 0 in s.nodes {
      assert s.nodes[0].parent.None?;
      LocatedIffAlive(s, b, path);
    } else {
      NobodyWithoutRoot(s, b, path);
    }
  }

  /**
   The tree is the book: after any operations the handles and values that exist are those of the
   book, each stands at its path there, and a path leads from the root to a node exactly if somebody
   holds a monitor or a value at or below it.
   */
  lemma TreeIsBook(h: nat, run: seq<Op>, g: nat, v: nat, path: Path)
    ensures var s, b := Exec(h, run), BookOf(h, run);
      && (User(g) in s.refs <==> g in b.handles)
      && (g in b.handles ==> Locate(s, 0, b.handles[g]) == Some(s.refs[User(g)]))
      && (v in s.vals <==> v in b.values)
      && (v in b.values ==>
            Locate(s, 0, b.values[v].path) == Some(s.vals[v].node) && s.vals[v].name == b.values[v].name)
      && (0 in s.nodes && Locate(s, 0, path).Some? <==> Alive(b, path))
  {
    var s, b := Exec(h, run), BookOf(h, run);
    ExecAgrees(h, run);
    if g in b.handles { LocatePathTo(s, s.refs[User(g)]); }
    if v in b.values { LocatePathTo(s, s.vals[v].node); }
    ExecAlive(h, run, path);
  }
}
