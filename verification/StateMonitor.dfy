/**
 The tree of state monitors (state_monitor/src/lib.rs).

 A node is the shared part of a monitor and lives as long as some `StateMonitor` object refers to it
 (its `Arc`). Besides that, the parent keeps a reference count of its own per child. Every
 `StateMonitor` object is listed in `refs`: those held by users, the `parent` field of each child,
 and the `monitor` field of each value. The child and value maps of all nodes are kept in one map
 each, keyed by node. Every public operation is one atomic step; `locate` is also taken apart into its
 steps, which module LocateRace interleaves with everything else.
 */
module StateMonitor {
  import opened Options

  datatype MonitorId = MonitorId(name: string, disambiguator: nat)

  datatype Node = Node(id: MonitorId, parent: Option<nat>)

  /** An entry in the parent's map of children. */
  datatype Child = Child(refcount: nat, node: nat)

  /** A `StateMonitor` object, by who owns it. */
  datatype Ref = User(handle: nat) | ParentField(node: nat) | OfValue(value: nat)

  /** The node and the name of a monitored value. */
  datatype Slot = Slot(node: nat, name: string)
  datatype Key = Key(node: nat, id: MonitorId)

  datatype Tree = Tree(
    nodes: map<nat, Node>, children: map<Key, Child>, values: map<Slot, nat>,
    refs: map<Ref, nat>, vals: map<nat, Slot>, next: nat)

  const ROOT_ID := MonitorId("", 0)

  /** `make_root`, with the handle it returns. */
  function Init(handle: nat): Tree {
    Tree(map[0 := Node(ROOT_ID, None)], map[], map[], map[User(handle) := 0], map[], 1)
  }

  // ---------------------------------------------------------------- counting

  function RefsTo(refs: map<Ref, nat>, n: nat): set<Ref> {
    set r | r in refs && refs[r] == n
  }

  /** The strong count of a node's `Arc`. */
  function Count(refs: map<Ref, nat>, n: nat): nat { |RefsTo(refs, n)| }

  lemma CountAdd(refs: map<Ref, nat>, r: Ref, n: nat, m: nat)
    requires r !in refs
    ensures Count(refs[r := n], m) == Count(refs, m) + if m == n then 1 else 0
  {
    assert RefsTo(refs[r := n], m) == RefsTo(refs, m) + if m == n then {r} else {};
  }

  lemma CountRemove(refs: map<Ref, nat>, r: Ref, m: nat)
    requires r in refs
    ensures Count(refs, m) == Count(refs - {r}, m) + if m == refs[r] then 1 else 0
  {
    assert RefsTo(refs, m) == RefsTo(refs - {r}, m) + if m == refs[r] then {r} else {};
  }

  lemma CountPositive(refs: map<Ref, nat>, r: Ref)
    requires r in refs
    ensures Count(refs, refs[r]) > 0
  {
    assert r in RefsTo(refs, refs[r]);
  }

  /** The live values behind a slot. */
  function Holders(vals: map<nat, Slot>, slot: Slot): set<nat> {
    set v | v in vals && vals[v] == slot
  }

  // ---------------------------------------------------------------- invariant

  function KeyOf(node: Node): Key
    requires node.parent.Some?
  {
    Key(node.parent.value, node.id)
  }

  /** Parents and children agree, and a parent is older than its children. */
  ghost predicate ShapeOk(s: Tree) {
    ParentsOk(s) && EntriesOk(s)
  }

  ghost predicate ParentsOk(s: Tree) {
    && (forall n :: n in s.nodes ==> n < s.next)
    && (forall n {:trigger s.nodes[n]} :: n in s.nodes && s.nodes[n].parent.None? ==> n == 0)
    && (forall n {:trigger s.nodes[n]} :: n in s.nodes && s.nodes[n].parent.Some? ==>
          s.nodes[n].parent.value < n && s.nodes[n].parent.value in s.nodes)
  }

  ghost predicate EntriesOk(s: Tree) {
    && (forall n {:trigger s.nodes[n]} :: n in s.nodes && s.nodes[n].parent.Some? ==>
          KeyOf(s.nodes[n]) in s.children && s.children[KeyOf(s.nodes[n])].node == n)
    && (forall k {:trigger s.children[k]} :: k in s.children ==>
          s.children[k].node in s.nodes && s.nodes[s.children[k].node] == Node(k.id, Some(k.node)))
  }

  /** References lead to live nodes; the nodes in `gone` are freed, but their parent fields are not dropped yet. */
  ghost predicate RefsOk(s: Tree, gone: set<nat>) {
    && (forall r :: r in s.refs ==> s.refs[r] in s.nodes)
    && (forall n {:trigger s.nodes[n]} :: n in s.nodes && s.nodes[n].parent.Some? ==>
          ParentField(n) in s.refs && s.refs[ParentField(n)] == s.nodes[n].parent.value)
    && (forall r :: r in s.refs && r.ParentField? && r.node !in gone ==>
          r.node in s.nodes && s.nodes[r.node].parent.Some?)
    && (forall d :: d in gone ==>
          d !in s.nodes && d < s.next && ParentField(d) in s.refs && s.refs[ParentField(d)] < d)
  }

  /** Every node is referred to, and the count its parent keeps is the number of its live references. */
  ghost predicate CountsOk(s: Tree) {
    && (forall n {:trigger Count(s.refs, n)} :: n in s.nodes ==> Count(s.refs, n) > 0)
    && (forall k :: k in s.children ==> s.children[k].refcount == Count(s.refs, s.children[k].node))
  }

  ghost predicate ValsOk(s: Tree) {
    && (forall v :: v in s.vals ==> OfValue(v) in s.refs && s.refs[OfValue(v)] == s.vals[v].node)
    && (forall slot :: slot in s.values ==> 0 < s.values[slot] == |Holders(s.vals, slot)|)
    && (forall slot :: slot !in s.values ==> |Holders(s.vals, slot)| == 0)
  }

  ghost predicate Inv(s: Tree, gone: set<nat>) {
    ShapeOk(s) && RefsOk(s, gone) && CountsOk(s) && ValsOk(s)
  }

  // ---------------------------------------------------------------- references come and go

  /** The entry that the parent of `n` keeps is there: `unwrap` and `unreachable!` sites rely on it. */
  predicate HasEntry(s: Tree, n: nat) {
    n in s.nodes && (s.nodes[n].parent.Some? ==>
      KeyOf(s.nodes[n]) in s.children && s.children[KeyOf(s.nodes[n])].refcount > 0)
  }

  /** `increment_refcount`. */
  function Increment(s: Tree, n: nat): map<Key, Child>
    requires HasEntry(s, n)
  {
    if s.nodes[n].parent.None? then s.children
    else
      var k := KeyOf(s.nodes[n]);
      s.children[k := s.children[k].(refcount := s.children[k].refcount + 1)]
  }

  /** A new `StateMonitor` object for `n`: the `Arc` is cloned and the count incremented. */
  function AddRef(s: Tree, r: Ref, n: nat): Tree
    requires HasEntry(s, n)
  {
    s.(refs := s.refs[r := n], children := Increment(s, n))
  }

  lemma EntryExists(s: Tree, gone: set<nat>, n: nat)
    requires Inv(s, gone) && n in s.nodes
    ensures HasEntry(s, n)
  {
  }

  lemma AddRefShape(s: Tree, r: Ref, n: nat)
    requires ShapeOk(s) && HasEntry(s, n)
    ensures ShapeOk(AddRef(s, r, n))
  {
  }

  lemma AddRefCounts(s: Tree, r: Ref, n: nat)
    requires EntriesOk(s) && CountsOk(s) && HasEntry(s, n) && r !in s.refs
    ensures CountsOk(AddRef(s, r, n))
  {
    var t := AddRef(s, r, n);
    forall m ensures Count(t.refs, m) == Count(s.refs, m) + if m == n then 1 else 0 {
      CountAdd(s.refs, r, n, m);
    }
    forall k | k in t.children ensures t.children[k].refcount == Count(t.refs, t.children[k].node) {
      assert s.children[k].node == n <==> s.nodes[n].parent.Some? && k == KeyOf(s.nodes[n]);
    }
  }

  lemma AddRefRefs(s: Tree, gone: set<nat>, r: Ref, n: nat)
    requires RefsOk(s, gone) && HasEntry(s, n) && r !in s.refs && !r.ParentField?
    ensures RefsOk(AddRef(s, r, n), gone)
  {
  }

  /** Values are untouched as long as their own references are. */
  lemma ValsFrame(s: Tree, t: Tree)
    requires ValsOk(s) && t.vals == s.vals && t.values == s.values
    requires forall v :: v in s.vals ==> OfValue(v) in t.refs && t.refs[OfValue(v)] == s.refs[OfValue(v)]
    ensures ValsOk(t)
  {
  }

  lemma AddRefInv(s: Tree, gone: set<nat>, r: Ref, n: nat)
    requires Inv(s, gone) && HasEntry(s, n) && r !in s.refs && !r.ParentField?
    ensures Inv(AddRef(s, r, n), gone)
  {
    AddRefShape(s, r, n);
    AddRefCounts(s, r, n);
    AddRefRefs(s, gone, r, n);
    ValsFrame(s, AddRef(s, r, n));
  }

  /** Decrement the count of `n`, and remove its entry when it drops to zero. */
  function Decrement(s: Tree, n: nat): map<Key, Child>
    requires HasEntry(s, n)
  {
    if s.nodes[n].parent.None? then s.children
    else
      var k := KeyOf(s.nodes[n]);
      if s.children[k].refcount == 1 then s.children - {k}
      else s.children[k := s.children[k].(refcount := s.children[k].refcount - 1)]
  }

  /** One `StateMonitor` object is dropped; its node is freed if that was the last one. */
  function Unref(s: Tree, r: Ref): Tree
    requires r in s.refs && HasEntry(s, s.refs[r])
  {
    var n, refs := s.refs[r], s.refs - {r};
    s.(refs := refs, children := Decrement(s, n), nodes := if Count(refs, n) == 0 then s.nodes - {n} else s.nodes)
  }

  /** The node that was freed before its parent field `r` is dropped. */
  function Dying(r: Ref): set<nat> { if r.ParentField? then {r.node} else {} }

  /** The nodes in `held` that nothing counted refers to any more; an `Arc` keeps their parent fields alive. */
  function Gone(s: Tree, held: set<nat>): (gone: set<nat>)
    ensures held == {} ==> gone == {}
  {
    set n | n in held && n !in s.nodes
  }

  /** `held` are the nodes other than the root to which somebody has an uncounted `Arc`. */
  ghost predicate Droppable(s: Tree, held: set<nat>, r: Ref) {
    && Inv(s, Gone(s, held) + Dying(r)) && 0 !in held
    && r in s.refs && (r.OfValue? ==> r.value !in s.vals) && (r.ParentField? ==> r.node !in held)
  }

  /** A node that was freed, unless its parent field lives on. */
  function Freed(s: Tree, t: Tree, n: nat, held: set<nat>): set<nat>
    requires n in s.nodes
  {
    if n in t.nodes || s.nodes[n].parent.None? || n in held then {} else {n}
  }

  lemma UnrefTally(s: Tree, r: Ref, m: nat)
    requires r in s.refs && HasEntry(s, s.refs[r])
    ensures Count(s.refs, m) == Count(Unref(s, r).refs, m) + if m == s.refs[r] then 1 else 0
  {
    CountRemove(s.refs, r, m);
  }

  /** The kept count reaches zero exactly when the last reference is dropped. */
  lemma FreedIff(s: Tree, r: Ref)
    requires ShapeOk(s) && CountsOk(s) && r in s.refs && HasEntry(s, s.refs[r])
    ensures var n := s.refs[r]; s.nodes[n].parent.Some? ==>
      (n !in Unref(s, r).nodes <==> KeyOf(s.nodes[n]) !in Unref(s, r).children)
  {
    UnrefTally(s, r, s.refs[r]);
  }

  /** Nothing refers to a node that is freed, in particular no child of its own. */
  lemma FreedHasNoRefs(s: Tree, r: Ref, q: Ref)
    requires r in s.refs && HasEntry(s, s.refs[r]) && s.refs[r] !in Unref(s, r).nodes
    requires q in s.refs && q != r
    ensures s.refs[q] != s.refs[r]
  {
    var refs := s.refs - {r};
    assert q in refs;
    CountPositive(refs, q);
  }

  lemma UnrefParents(s: Tree, gone: set<nat>, r: Ref)
    requires ParentsOk(s) && RefsOk(s, gone + Dying(r)) && r in s.refs && HasEntry(s, s.refs[r])
    ensures ParentsOk(Unref(s, r))
  {
    var n, t := s.refs[r], Unref(s, r);
    forall m | m in t.nodes && t.nodes[m].parent.Some? ensures t.nodes[m].parent.value in t.nodes {
      if n !in t.nodes { FreedHasNoRefs(s, r, ParentField(m)); }
    }
  }

  lemma UnrefEntries(s: Tree, r: Ref)
    requires ShapeOk(s) && CountsOk(s) && r in s.refs && HasEntry(s, s.refs[r])
    ensures EntriesOk(Unref(s, r))
  {
    var n, t := s.refs[r], Unref(s, r);
    FreedIff(s, r);
    forall k | k in t.children
      ensures t.children[k].node in t.nodes && t.nodes[t.children[k].node] == Node(k.id, Some(k.node)) {
      assert s.nodes[s.children[k].node] == Node(k.id, Some(k.node));
    }
    forall m | m in t.nodes && t.nodes[m].parent.Some?
      ensures KeyOf(t.nodes[m]) in t.children && t.children[KeyOf(t.nodes[m])].node == m
    {
      assert s.children[KeyOf(s.nodes[m])].node == m;
    }
  }

  lemma UnrefCounts(s: Tree, r: Ref)
    requires ShapeOk(s) && CountsOk(s) && r in s.refs && HasEntry(s, s.refs[r])
    ensures CountsOk(Unref(s, r))
  {
    var n, t := s.refs[r], Unref(s, r);
    forall m ensures Count(s.refs, m) == Count(t.refs, m) + if m == n then 1 else 0 { UnrefTally(s, r, m); }
    forall k | k in t.children ensures t.children[k].refcount == Count(t.refs, t.children[k].node) {
      assert s.children[k].node == n <==> s.nodes[n].parent.Some? && k == KeyOf(s.nodes[n]);
    }
  }

  lemma UnrefTargets(s: Tree, gone: set<nat>, r: Ref)
    requires RefsOk(s, gone + Dying(r)) && r in s.refs && HasEntry(s, s.refs[r])
    ensures forall q :: q in Unref(s, r).refs ==> Unref(s, r).refs[q] in Unref(s, r).nodes
  {
    var t := Unref(s, r);
    forall q | q in t.refs ensures t.refs[q] in t.nodes {
      if s.refs[r] !in t.nodes { FreedHasNoRefs(s, r, q); }
    }
  }

  lemma GoneGrows(s: Tree, t: Tree, held: set<nat>)
    requires t.nodes.Keys <= s.nodes.Keys
    ensures Gone(s, held) <= Gone(t, held)
  {
  }

  /** Every parent field that is left belongs to a live node or to one that is gone. */
  lemma UnrefFields(s: Tree, held: set<nat>, r: Ref, q: Ref)
    requires RefsOk(s, Gone(s, held) + Dying(r)) && r in s.refs && HasEntry(s, s.refs[r])
    requires q in Unref(s, r).refs && q.ParentField?
    requires q.node !in Gone(Unref(s, r), held) + Freed(s, Unref(s, r), s.refs[r], held)
    ensures q.node in Unref(s, r).nodes && s.nodes[q.node].parent.Some?
  {
    assert q in s.refs && q != r && q.node !in Dying(r);
    GoneGrows(s, Unref(s, r), held);
  }

  lemma UnrefGone(s: Tree, held: set<nat>, r: Ref, d: nat)
    requires ParentsOk(s) && RefsOk(s, Gone(s, held) + Dying(r)) && r in s.refs && HasEntry(s, s.refs[r])
    requires 0 !in held && (r.ParentField? ==> r.node !in held)
    requires d in Gone(Unref(s, r), held) + Freed(s, Unref(s, r), s.refs[r], held)
    ensures var t := Unref(s, r);
      d !in t.nodes && d < t.next && ParentField(d) in t.refs && t.refs[ParentField(d)] < d
  {
    if d in s.nodes {
      assert d == s.refs[r] && s.nodes[d].parent.Some?;
    } else {
      assert d in Gone(s, held);
    }
  }

  lemma UnrefRefs(s: Tree, held: set<nat>, r: Ref)
    requires ParentsOk(s) && RefsOk(s, Gone(s, held) + Dying(r)) && r in s.refs && HasEntry(s, s.refs[r])
    requires 0 !in held && (r.ParentField? ==> r.node !in held)
    ensures var t := Unref(s, r); RefsOk(t, Gone(t, held) + Freed(s, t, s.refs[r], held))
  {
    var t := Unref(s, r);
    var gone := Gone(t, held) + Freed(s, t, s.refs[r], held);
    UnrefTargets(s, Gone(s, held), r);
    forall q | q in t.refs && q.ParentField? && q.node !in gone
      ensures q.node in t.nodes && t.nodes[q.node].parent.Some? {
      UnrefFields(s, held, r, q);
    }
    forall d | d in gone
      ensures d !in t.nodes && d < t.next && ParentField(d) in t.refs && t.refs[ParentField(d)] < d
    {
      UnrefGone(s, held, r, d);
    }
  }

  lemma UnrefInv(s: Tree, held: set<nat>, r: Ref)
    requires Droppable(s, held, r)
    ensures HasEntry(s, s.refs[r])
    ensures var t := Unref(s, r); Inv(t, Gone(t, held) + Freed(s, t, s.refs[r], held))
  {
    EntryExists(s, Gone(s, held) + Dying(r), s.refs[r]);
    UnrefParents(s, Gone(s, held), r);
    UnrefEntries(s, r);
    UnrefCounts(s, r);
    UnrefRefs(s, held, r);
    ValsFrame(s, Unref(s, r));
  }

  /**
   `drop`, with the cascade up the tree: a freed node drops its own reference to its parent, unless
   an `Arc` to it is still held.
   */
  function Release(s: Tree, held: set<nat>, r: Ref): (t: Tree)
    requires Droppable(s, held, r)
    ensures Inv(t, Gone(t, held))
    decreases s.refs[r]
  {
    UnrefInv(s, held, r);
    var n, t := s.refs[r], Unref(s, r);
    if Freed(s, t, n, held) == {} then
      assert Gone(t, held) + {} == Gone(t, held);
      t
    else Release(t, held, ParentField(n))
  }

  // ---------------------------------------------------------------- the public operations

  /** Add the new node `m` below `p` with its one handle. */
  function Attach(s: Tree, m: nat, p: nat, id: MonitorId, h: nat): Tree {
    s.(nodes := s.nodes[m := Node(id, Some(p))],
       children := s.children[Key(p, id) := Child(1, m)],
       refs := s.refs[User(h) := m])
  }

  /** The tree with a reference to `p` for a child that is about to be created. */
  function Reserve(s: Tree, p: nat): Tree
    requires HasEntry(s, p)
  {
    AddRef(s, ParentField(s.next), p).(next := s.next + 1)
  }

  /** `make_non_unique_child`: find the child or create it, and return a handle `h` to it. */
  function MakeChild(s: Tree, p: nat, id: MonitorId, h: nat): Tree
    requires HasEntry(s, p)
    requires Key(p, id) in s.children ==> HasEntry(s, s.children[Key(p, id)].node)
  {
    if Key(p, id) in s.children then AddRef(s, User(h), s.children[Key(p, id)].node)
    else Attach(Reserve(s, p), s.next, p, id, h)
  }

  lemma AttachParents(s: Tree, m: nat, p: nat, id: MonitorId, h: nat)
    requires ParentsOk(s) && p in s.nodes && p < m < s.next
    ensures ParentsOk(Attach(s, m, p, id, h))
  {
  }

  lemma AttachEntries(s: Tree, m: nat, p: nat, id: MonitorId, h: nat)
    requires EntriesOk(s) && m !in s.nodes && Key(p, id) !in s.children
    ensures EntriesOk(Attach(s, m, p, id, h))
  {
    var t := Attach(s, m, p, id, h);
    forall n | n in t.nodes && t.nodes[n].parent.Some?
      ensures KeyOf(t.nodes[n]) in t.children && t.children[KeyOf(t.nodes[n])].node == n
    {
      if n != m { assert KeyOf(s.nodes[n]) in s.children; }
    }
  }

  lemma AttachCounts(s: Tree, gone: set<nat>, m: nat, p: nat, id: MonitorId, h: nat)
    requires EntriesOk(s) && RefsOk(s, gone + {m}) && CountsOk(s) && Key(p, id) !in s.children && User(h) !in s.refs
    ensures CountsOk(Attach(s, m, p, id, h))
  {
    var t := Attach(s, m, p, id, h);
    assert RefsTo(s.refs, m) == {};
    forall n ensures Count(t.refs, n) == Count(s.refs, n) + if n == m then 1 else 0 { CountAdd(s.refs, User(h), m, n); }
  }

  lemma AttachRefs(s: Tree, gone: set<nat>, m: nat, p: nat, id: MonitorId, h: nat)
    requires RefsOk(s, gone + {m}) && s.refs[ParentField(m)] == p && User(h) !in s.refs && m !in gone
    ensures RefsOk(Attach(s, m, p, id, h), gone)
  {
  }

  lemma ReserveRefs(s: Tree, gone: set<nat>, p: nat)
    requires ParentsOk(s) && RefsOk(s, gone) && HasEntry(s, p)
    ensures RefsOk(Reserve(s, p), gone + {s.next})
  {
  }

  lemma ReserveFresh(s: Tree, gone: set<nat>)
    requires ParentsOk(s) && RefsOk(s, gone)
    ensures ParentField(s.next) !in s.refs
  {
    assert s.next !in s.nodes && s.next !in gone;
  }

  lemma ReserveShape(s: Tree, p: nat)
    requires ShapeOk(s) && HasEntry(s, p)
    ensures ShapeOk(Reserve(s, p))
  {
    AddRefShape(s, ParentField(s.next), p);
  }

  lemma ReserveCounts(s: Tree, p: nat)
    requires EntriesOk(s) && CountsOk(s) && HasEntry(s, p) && ParentField(s.next) !in s.refs
    ensures CountsOk(Reserve(s, p))
  {
    AddRefCounts(s, ParentField(s.next), p);
  }

  lemma ReserveInv(s: Tree, gone: set<nat>, p: nat)
    requires Inv(s, gone) && HasEntry(s, p)
    ensures Inv(Reserve(s, p), gone + {s.next})
  {
    ReserveFresh(s, gone);
    ReserveShape(s, p);
    ReserveRefs(s, gone, p);
    ReserveCounts(s, p);
    ValsFrame(s, Reserve(s, p));
  }

  lemma NewChildInv(s: Tree, gone: set<nat>, m: nat, p: nat, id: MonitorId, h: nat)
    requires Inv(s, gone + {m}) && s.refs[ParentField(m)] == p && Key(p, id) !in s.children && User(h) !in s.refs
    requires m !in gone
    ensures Inv(Attach(s, m, p, id, h), gone)
  {
    AttachParents(s, m, p, id, h);
    AttachEntries(s, m, p, id, h);
    AttachCounts(s, gone, m, p, id, h);
    AttachRefs(s, gone, m, p, id, h);
    ValsFrame(s, Attach(s, m, p, id, h));
  }

  /** The reservation changes nothing that concerns the new entry or other references. */
  lemma ReserveFrame(s: Tree, p: nat, id: MonitorId, h: nat)
    requires HasEntry(s, p) && Key(p, id) !in s.children && User(h) !in s.refs
    ensures var t := Reserve(s, p);
      t.refs[ParentField(s.next)] == p && Key(p, id) !in t.children && User(h) !in t.refs
  {
  }

  lemma FreshChildInv(s: Tree, gone: set<nat>, p: nat, id: MonitorId, h: nat)
    requires HasEntry(s, p) && Key(p, id) !in s.children && User(h) !in s.refs && s.next !in gone
    requires Inv(Reserve(s, p), gone + {s.next})
    ensures Inv(MakeChild(s, p, id, h), gone)
  {
    ReserveFrame(s, p, id, h);
    NewChildInv(Reserve(s, p), gone, s.next, p, id, h);
  }

  lemma ExistingChildInv(s: Tree, gone: set<nat>, p: nat, id: MonitorId, h: nat)
    requires Inv(s, gone) && HasEntry(s, p) && Key(p, id) in s.children && User(h) !in s.refs
    ensures HasEntry(s, s.children[Key(p, id)].node) && Inv(MakeChild(s, p, id, h), gone)
  {
    var n := s.children[Key(p, id)].node;
    EntryExists(s, gone, n);
    AddRefInv(s, gone, User(h), n);
  }

  lemma MakeChildInv(s: Tree, gone: set<nat>, p: nat, id: MonitorId, h: nat)
    requires Inv(s, gone) && p in s.nodes && User(h) !in s.refs
    ensures HasEntry(s, p) && (Key(p, id) in s.children ==> HasEntry(s, s.children[Key(p, id)].node))
    ensures Inv(MakeChild(s, p, id, h), gone)
  {
    EntryExists(s, gone, p);
    if Key(p, id) in s.children {
      ExistingChildInv(s, gone, p, id, h);
    } else {
      ReserveInv(s, gone, p);
      FreshChildInv(s, gone, p, id, h);
    }
  }

  /** `locate`: follow the children along `path`. */
  function Locate(s: Tree, n: nat, path: seq<MonitorId>): Option<nat>
    decreases path
  {
    if path == [] then Some(n)
    else if Key(n, path[0]) in s.children then Locate(s, s.children[Key(n, path[0])].node, path[1..])
    else None
  }

  /** A new value behind `slot`: the first one creates the slot. */
  function AddValue(s: Tree, v: nat, slot: Slot): Tree
    requires HasEntry(s, slot.node)
  {
    AddRef(s, OfValue(v), slot.node)
      .(vals := s.vals[v := slot], values := s.values[slot := (if slot in s.values then s.values[slot] else 0) + 1])
  }

  lemma HoldersAdd(vals: map<nat, Slot>, v: nat, slot: Slot, other: Slot)
    requires v !in vals
    ensures |Holders(vals[v := slot], other)| == |Holders(vals, other)| + if other == slot then 1 else 0
  {
    assert Holders(vals[v := slot], other) == Holders(vals, other) + if other == slot then {v} else {};
  }

  lemma HoldersRemove(vals: map<nat, Slot>, v: nat, other: Slot)
    requires v in vals
    ensures |Holders(vals, other)| == |Holders(vals - {v}, other)| + if other == vals[v] then 1 else 0
  {
    assert Holders(vals, other) == Holders(vals - {v}, other) + if other == vals[v] then {v} else {};
  }

  lemma AddValueVals(s: Tree, v: nat, slot: Slot)
    requires ValsOk(s) && HasEntry(s, slot.node) && v !in s.vals
    ensures ValsOk(AddValue(s, v, slot))
  {
    var t := AddValue(s, v, slot);
    forall other ensures |Holders(t.vals, other)| == |Holders(s.vals, other)| + if other == slot then 1 else 0 {
      HoldersAdd(s.vals, v, slot, other);
    }
  }

  /** Neither shape, references nor counts look at values. */
  lemma NonValuesFrame(s: Tree, t: Tree, gone: set<nat>)
    requires Inv(s, gone) && ValsOk(t) && t.nodes == s.nodes && t.children == s.children
      && t.refs == s.refs && t.next == s.next
    ensures Inv(t, gone)
  {
  }

  lemma AddValueInv(s: Tree, gone: set<nat>, v: nat, slot: Slot)
    requires Inv(s, gone) && slot.node in s.nodes && v !in s.vals && OfValue(v) !in s.refs
    ensures HasEntry(s, slot.node) && Inv(AddValue(s, v, slot), gone)
  {
    EntryExists(s, gone, slot.node);
    AddRefInv(s, gone, OfValue(v), slot.node);
    AddValueVals(s, v, slot);
    NonValuesFrame(AddRef(s, OfValue(v), slot.node), AddValue(s, v, slot), gone);
  }

  /** Take a value out of its slot; its `monitor` field is dropped next. */
  function RemoveValue(s: Tree, v: nat): Tree
    requires v in s.vals && s.vals[v] in s.values && s.values[s.vals[v]] > 0
  {
    var slot := s.vals[v];
    s.(vals := s.vals - {v},
       values := if s.values[slot] == 1 then s.values - {slot} else s.values[slot := s.values[slot] - 1])
  }

  lemma RemoveValueVals(s: Tree, v: nat)
    requires ValsOk(s) && v in s.vals
    ensures s.vals[v] in s.values && s.values[s.vals[v]] > 0
    ensures ValsOk(RemoveValue(s, v))
  {
    var slot := s.vals[v];
    HoldersRemove(s.vals, v, slot);
    var t := RemoveValue(s, v);
    forall other ensures |Holders(s.vals, other)| == |Holders(t.vals, other)| + if other == slot then 1 else 0 {
      HoldersRemove(s.vals, v, other);
    }
  }

  lemma RemoveValueInv(s: Tree, held: set<nat>, v: nat)
    requires Inv(s, Gone(s, held)) && 0 !in held && v in s.vals
    ensures s.vals[v] in s.values && s.values[s.vals[v]] > 0
    ensures Droppable(RemoveValue(s, v), held, OfValue(v))
  {
    RemoveValueVals(s, v);
    NonValuesFrame(s, RemoveValue(s, v), Gone(s, held));
    assert Gone(s, held) + {} == Gone(RemoveValue(s, v), held);
  }

  // ---------------------------------------------------------------- any sequence of operations

  datatype Op =
    | MakeChildOf(on: nat, id: MonitorId, h: nat)
    | Clone(on: nat, h: nat)
    | LocateFrom(on: nat, path: seq<MonitorId>, h: nat)
    | Drop(on: nat)
    | MakeValue(on: nat, name: string, v: nat)
    | CloneValue(v: nat, copy: nat)
    | DropValue(v: nat)

  /** The handles and values used exist, and the ones returned are new. */
  predicate Enabled(s: Tree, op: Op) {
    match op
    case MakeChildOf(on, _, h) => User(on) in s.refs && User(h) !in s.refs
    case Clone(on, h) => User(on) in s.refs && User(h) !in s.refs
    case LocateFrom(on, _, h) => User(on) in s.refs && User(h) !in s.refs
    case Drop(on) => User(on) in s.refs
    case MakeValue(on, _, v) => User(on) in s.refs && OfValue(v) !in s.refs
    case CloneValue(v, copy) => v in s.vals && OfValue(copy) !in s.refs
    case DropValue(v) => v in s.vals
  }

  lemma {:induction false} LocateLive(s: Tree, n: nat, path: seq<MonitorId>)
    requires EntriesOk(s) && n in s.nodes
    ensures Locate(s, n, path).Some? ==> Locate(s, n, path).value in s.nodes
    decreases path
  {
    if path != [] && Key(n, path[0]) in s.children {
      LocateLive(s, s.children[Key(n, path[0])].node, path[1..]);
    }
  }

  /** What is held stays held where no node is freed. */
  lemma GoneSame(s: Tree, gone: set<nat>, t: Tree, held: set<nat>)
    requires RefsOk(s, gone) && Gone(s, held) <= gone && ParentsOk(s)
    requires s.nodes.Keys <= t.nodes.Keys && forall n :: n in t.nodes && n !in s.nodes ==> n == s.next
    ensures Gone(t, held) == Gone(s, held)
  {
  }

  /** One operation, while the nodes in `held` have an uncounted `Arc`. */
  function Step(s: Tree, held: set<nat>, op: Op): (t: Tree)
    requires Inv(s, Gone(s, held)) && 0 !in held
    ensures Inv(t, Gone(t, held))
  {
    if !Enabled(s, op) then s else
    match op
    case MakeChildOf(on, id, h) => Grow(s, held, s.refs[User(on)], id, h)
    case Clone(on, h) => Borrow(s, held, s.refs[User(on)], h)
    case LocateFrom(on, path, h) =>
      LocateLive(s, s.refs[User(on)], path);
      var found := Locate(s, s.refs[User(on)], path);
      if found.Some? then Borrow(s, held, found.value, h) else s
    case Drop(on) =>
      assert Gone(s, held) + {} == Gone(s, held);
      Release(s, held, User(on))
    case MakeValue(on, name, v) => KeepValue(s, held, v, Slot(s.refs[User(on)], name))
    case CloneValue(v, copy) => KeepValue(s, held, copy, s.vals[v])
    case DropValue(v) => DiscardValue(s, held, v)
  }

  function Grow(s: Tree, held: set<nat>, p: nat, id: MonitorId, h: nat): (t: Tree)
    requires Inv(s, Gone(s, held)) && p in s.nodes && User(h) !in s.refs
    ensures Inv(t, Gone(t, held))
  {
    MakeChildInv(s, Gone(s, held), p, id, h);
    GoneSame(s, Gone(s, held), MakeChild(s, p, id, h), held);
    MakeChild(s, p, id, h)
  }

  function KeepValue(s: Tree, held: set<nat>, v: nat, slot: Slot): (t: Tree)
    requires Inv(s, Gone(s, held)) && slot.node in s.nodes && v !in s.vals && OfValue(v) !in s.refs
    ensures Inv(t, Gone(t, held))
  {
    AddValueInv(s, Gone(s, held), v, slot);
    GoneSame(s, Gone(s, held), AddValue(s, v, slot), held);
    AddValue(s, v, slot)
  }

  /** Dropping a `MonitoredValue`: out of its slot first, then its `monitor` field. */
  function DiscardValue(s: Tree, held: set<nat>, v: nat): (t: Tree)
    requires Inv(s, Gone(s, held)) && 0 !in held && v in s.vals
    ensures Inv(t, Gone(t, held))
  {
    RemoveValueInv(s, held, v);
    Release(RemoveValue(s, v), held, OfValue(v))
  }

  function Borrow(s: Tree, held: set<nat>, n: nat, h: nat): (t: Tree)
    requires Inv(s, Gone(s, held)) && n in s.nodes && User(h) !in s.refs
    ensures Inv(t, Gone(t, held))
  {
    EntryExists(s, Gone(s, held), n);
    AddRefInv(s, Gone(s, held), User(h), n);
    GoneSame(s, Gone(s, held), AddRef(s, User(h), n), held);
    AddRef(s, User(h), n)
  }

  lemma InitInv(h: nat)
    ensures Inv(Init(h), {})
  {
    CountPositive(Init(h).refs, User(h));
    forall slot ensures Holders(map[], slot) == {} {}
  }

  /** Operations one after the other, `locate` included. */
  function Exec(h: nat, run: seq<Op>): (s: Tree)
    ensures Inv(s, {})
  {
    InitInv(h);
    if run == [] then Init(h) else Step(Exec(h, run[..|run| - 1]), {}, run[|run| - 1])
  }

  // ---------------------------------------------------------------- main results

  /** `t` comes from `s` by dropping `r` and parent fields only, and none of a node that is held. */
  ghost predicate Shrunk(s: Tree, t: Tree, held: set<nat>, r: Ref) {
    && t.vals == s.vals && t.values == s.values && t.next == s.next
    && (forall q :: q in s.refs && (q.ParentField? ==> q.node in held) && q != r ==>
           q in t.refs && t.refs[q] == s.refs[q])
    && (forall q :: q in t.refs ==> q in s.refs && q != r)
    && (forall n :: n in t.nodes ==> n in s.nodes && t.nodes[n] == s.nodes[n])
  }

  lemma ShrunkTwice(s: Tree, t: Tree, u: Tree, held: set<nat>, r: Ref, q: Ref)
    requires Shrunk(s, t, held, r) && Shrunk(t, u, held, q) && q.ParentField? && q.node !in held
    ensures Shrunk(s, u, held, r)
  {
  }

  lemma UnrefShrunk(s: Tree, held: set<nat>, r: Ref)
    requires r in s.refs && HasEntry(s, s.refs[r])
    ensures Shrunk(s, Unref(s, r), held, r)
  {
  }

  /** Dropping one object drops no other, except the parent fields of the nodes it frees. */
  lemma {:induction false} ReleaseFrame(s: Tree, held: set<nat>, r: Ref)
    requires Droppable(s, held, r)
    ensures Shrunk(s, Release(s, held, r), held, r)
    decreases s.refs[r]
  {
    UnrefInv(s, held, r);
    var n, t := s.refs[r], Unref(s, r);
    UnrefShrunk(s, held, r);
    if Freed(s, t, n, held) != {} {
      ReleaseFrame(t, held, ParentField(n));
      ShrunkTwice(s, t, Release(t, held, ParentField(n)), held, r, ParentField(n));
    }
  }

  /** References of values belong to live values. */
  predicate ValueRefsOk(s: Tree) {
    forall r :: r in s.refs && r.OfValue? ==> r.value in s.vals
  }

  lemma DropValueRefs(s: Tree, held: set<nat>, r: Ref)
    requires Droppable(s, held, r)
    requires forall q :: q in s.refs && q.OfValue? && q != r ==> q.value in s.vals
    ensures ValueRefsOk(Release(s, held, r))
  {
    ReleaseFrame(s, held, r);
  }

  lemma AddValueValueRefs(s: Tree, v: nat, slot: Slot)
    requires ValueRefsOk(s) && HasEntry(s, slot.node)
    ensures ValueRefsOk(AddValue(s, v, slot))
  {
  }

  lemma MakeChildValueRefs(s: Tree, p: nat, id: MonitorId, h: nat)
    requires ValueRefsOk(s) && HasEntry(s, p) && (Key(p, id) in s.children ==> HasEntry(s, s.children[Key(p, id)].node))
    ensures ValueRefsOk(MakeChild(s, p, id, h))
  {
  }

  lemma GrowValueRefs(s: Tree, op: Op)
    requires Inv(s, {}) && ValueRefsOk(s) && Enabled(s, op) && !op.Drop? && !op.DropValue?
    ensures ValueRefsOk(Step(s, {}, op))
  {
    match op
    case MakeChildOf(on, id, h) =>
      MakeChildInv(s, {}, s.refs[User(on)], id, h);
      MakeChildValueRefs(s, s.refs[User(on)], id, h);
    case MakeValue(on, name, v) =>
      AddValueInv(s, {}, v, Slot(s.refs[User(on)], name));
      AddValueValueRefs(s, v, Slot(s.refs[User(on)], name));
    case CloneValue(v, copy) =>
      AddValueInv(s, {}, copy, s.vals[v]);
      AddValueValueRefs(s, copy, s.vals[v]);
    case _ =>
  }

  lemma DiscardValueRefs(s: Tree, v: nat)
    requires Inv(s, {}) && ValueRefsOk(s) && v in s.vals
    ensures ValueRefsOk(DiscardValue(s, {}, v))
  {
    RemoveValueInv(s, {}, v);
    DropValueRefs(RemoveValue(s, v), {}, OfValue(v));
  }

  lemma StepValueRefs(s: Tree, op: Op)
    requires Inv(s, {}) && ValueRefsOk(s)
    ensures ValueRefsOk(Step(s, {}, op))
  {
    if Enabled(s, op) {
      match op
      case Drop(on) => DropValueRefs(s, {}, User(on));
      case DropValue(v) => DiscardValueRefs(s, v);
      case _ => GrowValueRefs(s, op);
    }
  }

  lemma {:induction false} ExecValueRefs(h: nat, run: seq<Op>)
    ensures ValueRefsOk(Exec(h, run))
  {
    if run != [] {
      ExecValueRefs(h, run[..|run| - 1]);
      StepValueRefs(Exec(h, run[..|run| - 1]), run[|run| - 1]);
    }
  }

  /** The live references to a node: handles, parent fields of its live children, values' monitors. */
  function LiveRefs(s: Tree, n: nat): set<Ref> {
    (set r | r in s.refs && r.User? && s.refs[r] == n)
    + (set m | m in s.nodes && s.nodes[m].parent == Some(n) :: ParentField(m))
    + (set v | v in s.vals && s.vals[v].node == n :: OfValue(v))
  }

  /**
   Reference counts are exact: after any operations, the count a parent keeps for a child is the
   number of live references to it.
   */
  lemma CountsExact(h: nat, run: seq<Op>, n: nat)
    requires n in Exec(h, run).nodes && Exec(h, run).nodes[n].parent.Some?
    ensures var s := Exec(h, run);
      && KeyOf(s.nodes[n]) in s.children
      && s.children[KeyOf(s.nodes[n])] == Child(|LiveRefs(s, n)|, n)
      && |LiveRefs(s, n)| > 0
  {
    var s := Exec(h, run);
    ExecValueRefs(h, run);
    assert LiveRefs(s, n) == RefsTo(s.refs, n) by {
      forall r ensures r in LiveRefs(s, n) <==> r in RefsTo(s.refs, n) { LiveRefIff(s, n, r); }
    }
  }

  lemma LiveRefIff(s: Tree, n: nat, r: Ref)
    requires RefsOk(s, {}) && ValsOk(s) && ValueRefsOk(s)
    ensures r in LiveRefs(s, n) <==> r in RefsTo(s.refs, n)
  {
    match r
    case User(_) =>
    case ParentField(m) => assert r in LiveRefs(s, n) <==> m in s.nodes && s.nodes[m].parent == Some(n);
    case OfValue(v) => assert r in LiveRefs(s, n) <==> v in s.vals && s.vals[v].node == n;
  }

  /** The counts of values are exact too, and a slot exists exactly while it has a value. */
  lemma ValueCountsExact(h: nat, run: seq<Op>, slot: Slot)
    ensures var s := Exec(h, run);
      && (slot in s.values <==> exists v :: v in s.vals && s.vals[v] == slot)
      && (slot in s.values ==> s.values[slot] == |Holders(s.vals, slot)| && slot.node in s.nodes)
  {
    var s := Exec(h, run);
    if slot in s.values {
      assert Holders(s.vals, slot) != {};
      var v :| v in Holders(s.vals, slot);
    }
    if v :| v in s.vals && s.vals[v] == slot { assert v in Holders(s.vals, slot); }
  }

  /** The ids on the way from the root to `n`. */
  function PathTo(s: Tree, n: nat): seq<MonitorId>
    requires ParentsOk(s) && n in s.nodes
  {
    if s.nodes[n].parent.None? then [] else PathTo(s, s.nodes[n].parent.value) + [s.nodes[n].id]
  }

  lemma {:induction false} LocateExtend(s: Tree, n: nat, path: seq<MonitorId>, id: MonitorId)
    ensures Locate(s, n, path + [id]) ==
      match Locate(s, n, path)
      case Some(m) => if Key(m, id) in s.children then Some(s.children[Key(m, id)].node) else None
      case None => None
    decreases path
  {
    if path == [] {
      assert ([id])[1..] == [];
      assert path + [id] == [id];
    } else {
      assert (path + [id])[1..] == path[1..] + [id];
      if Key(n, path[0]) in s.children {
        LocateExtend(s, s.children[Key(n, path[0])].node, path[1..], id);
      }
    }
  }

  lemma {:induction false} LocatePathTo(s: Tree, n: nat)
    requires ShapeOk(s) && n in s.nodes
    ensures 0 in s.nodes && Locate(s, 0, PathTo(s, n)) == Some(n)
  {
    if s.nodes[n].parent.Some? {
      var p := s.nodes[n].parent.value;
      LocatePathTo(s, p);
      LocateExtend(s, 0, PathTo(s, p), s.nodes[n].id);
    }
  }

  lemma {:induction false} LocateIsPathTo(s: Tree, path: seq<MonitorId>)
    requires ShapeOk(s) && 0 in s.nodes && s.nodes[0].parent.None? && Locate(s, 0, path).Some?
    ensures Locate(s, 0, path).value in s.nodes && path == PathTo(s, Locate(s, 0, path).value)
    decreases |path|
  {
    if path != [] {
      var front, id := path[..|path| - 1], path[|path| - 1];
      assert path == front + [id];
      LocateExtend(s, 0, front, id);
      LocateIsPathTo(s, front);
      var n := Locate(s, 0, path).value;
      assert s.nodes[n] == Node(id, Some(Locate(s, 0, front).value));
    }
  }

  /** After any operations every live node is found from the root by its own path, and by no other. */
  lemma EveryNodeIsLocated(h: nat, run: seq<Op>, n: nat, path: seq<MonitorId>)
    requires n in Exec(h, run).nodes
    ensures var s := Exec(h, run);
      Locate(s, 0, path) == Some(n) <==> path == PathTo(s, n)
  {
    var s := Exec(h, run);
    LocatePathTo(s, n);
    assert s.nodes[0].parent.None?;
    if Locate(s, 0, path).Some? { LocateIsPathTo(s, path); }
  }

  /** `n` is `m` or one of its ancestors. */
  predicate Above(s: Tree, n: nat, m: nat)
    requires ParentsOk(s) && m in s.nodes
    decreases m
  {
    n == m || (s.nodes[m].parent.Some? && Above(s, n, s.nodes[m].parent.value))
  }

  lemma {:induction false} AboveIsLive(s: Tree, n: nat, m: nat)
    requires ParentsOk(s) && m in s.nodes && Above(s, n, m)
    ensures n in s.nodes
    decreases m
  {
    if n != m { AboveIsLive(s, n, s.nodes[m].parent.value); }
  }

  lemma {:induction false} SomeoneBelow(s: Tree, n: nat) returns (r: Ref)
    requires Inv(s, {}) && n in s.nodes
    ensures r in s.refs && !r.ParentField? && Above(s, n, s.refs[r])
    decreases s.next - n
  {
    assert Count(s.refs, n) > 0;
    r :| r in RefsTo(s.refs, n);
    if r.ParentField? {
      var m := r.node;
      r := SomeoneBelow(s, m);
      AboveTransitive(s, n, m, s.refs[r]);
    }
  }

  lemma {:induction false} AboveTransitive(s: Tree, n: nat, m: nat, k: nat)
    requires ParentsOk(s) && k in s.nodes && m in s.nodes && Above(s, m, k) && s.nodes[m].parent == Some(n)
    ensures Above(s, n, k)
    decreases k
  {
    if m != k { AboveTransitive(s, n, m, s.nodes[k].parent.value); }
  }

  /**
   No leaks and no dangling: a node is alive exactly while a handle or a value exists for it or for
   some node below it, so the cascade frees all it should and nothing else.
   */
  lemma AliveIffHeldBelow(h: nat, run: seq<Op>, n: nat)
    ensures var s := Exec(h, run);
      n in s.nodes <==> exists r :: r in s.refs && !r.ParentField? && Above(s, n, s.refs[r])
  {
    var s := Exec(h, run);
    if n in s.nodes { var r := SomeoneBelow(s, n); }
    if r :| r in s.refs && !r.ParentField? && Above(s, n, s.refs[r]) { AboveIsLive(s, n, s.refs[r]); }
  }

  // ---------------------------------------------------------------- locate in steps

  /**
   A `locate` in progress, called on the handle `from`, has an uncounted `Arc` to `node`. The handle
   is borrowed until it returns. `record` is the immutable part of the node.
   */
  datatype Cursor = Cursor(from: nat, node: nat, record: Node)

  /** The tree and the calls of `locate` in progress. */
  datatype Race = Race(tree: Tree, finds: map<nat, Cursor>)

  function HeldIn(finds: map<nat, Cursor>): set<nat> {
    set t | t in finds && finds[t].record.parent.Some? :: finds[t].node
  }

  ghost predicate CursorOk(s: Tree, c: Cursor) {
    && User(c.from) in s.refs && c.node < s.next
    && (c.node in s.nodes ==> s.nodes[c.node] == c.record)
    && if c.record.parent.None? then c.node == 0 && 0 in s.nodes
       else c.node != 0 && ParentField(c.node) in s.refs && s.refs[ParentField(c.node)] == c.record.parent.value
  }

  ghost predicate RaceInv(x: Race) {
    && Inv(x.tree, Gone(x.tree, HeldIn(x.finds))) && 0 !in HeldIn(x.finds)
    && forall t :: t in x.finds ==> CursorOk(x.tree, x.finds[t])
  }

  /** The call goes one level down, or returns without a result and lets go of its `Arc`. */
  function Descend(x: Race, ticket: nat, id: MonitorId): Race
    requires RaceInv(x) && ticket in x.finds
  {
    var c := x.finds[ticket];
    if Key(c.node, id) in x.tree.children then
      var n := x.tree.children[Key(c.node, id)].node;
      x.(finds := x.finds[ticket := Cursor(c.from, n, x.tree.nodes[n])])
    else
      var finds := x.finds - {ticket};
      if c.node in x.tree.nodes || c.node in HeldIn(finds) then x.(finds := finds)
      else
        LetGo(x, ticket);
        Race(Release(x.tree, HeldIn(finds), ParentField(c.node)), finds)
  }

  lemma HeldWithout(finds: map<nat, Cursor>, ticket: nat)
    requires ticket in finds
    ensures HeldIn(finds) ==
      HeldIn(finds - {ticket}) + if finds[ticket].record.parent.Some? then {finds[ticket].node} else {}
  {
    var rest := finds - {ticket};
    forall n ensures n in HeldIn(finds) <==>
      n in HeldIn(rest) || (finds[ticket].record.parent.Some? && n == finds[ticket].node)
    {
      if n in HeldIn(finds) {
        var t :| t in finds && finds[t].record.parent.Some? && finds[t].node == n;
        assert t == ticket || t in rest;
      }
      if n in HeldIn(rest) {
        var t :| t in rest && rest[t].record.parent.Some? && rest[t].node == n;
        assert t in finds;
      }
    }
  }

  /** The node of the last `Arc` is freed; its parent field goes next. */
  lemma LetGo(x: Race, ticket: nat)
    requires RaceInv(x) && ticket in x.finds
    requires var n := x.finds[ticket].node; n !in x.tree.nodes && n !in HeldIn(x.finds - {ticket})
    ensures Droppable(x.tree, HeldIn(x.finds - {ticket}), ParentField(x.finds[ticket].node))
  {
    var n, held := x.finds[ticket].node, HeldIn(x.finds - {ticket});
    HeldWithout(x.finds, ticket);
    assert Gone(x.tree, HeldIn(x.finds)) == Gone(x.tree, held) + {n};
  }

  /**
   `increment_refcount` and the handle returned. `None` is the panic of `unwrap`. The entry is found by
   the id alone.
   */
  function Finish(x: Race, ticket: nat, h: nat): Option<Race>
    requires ticket in x.finds
  {
    var c, s := x.finds[ticket], x.tree.(refs := x.tree.refs[User(h) := x.finds[ticket].node]);
    var finds := x.finds - {ticket};
    if c.record.parent.None? then Some(Race(s, finds))
    else
      var k := KeyOf(c.record);
      if k !in s.children then None
      else Some(Race(s.(children := s.children[k := s.children[k].(refcount := s.children[k].refcount + 1)]), finds))
  }

  // ---------------------------------------------------------------- the objects

  /** All monitors of one tree, updated in place by the operations, and the calls of `locate` in progress. */
  class Monitors {
    var nodes: map<nat, Node>
    var children: map<Key, Child>
    var values: map<Slot, nat>
    var refs: map<Ref, nat>
    var vals: map<nat, Slot>
    var next: nat
    var finds: map<nat, Cursor>

    ghost function View(): Tree
      reads this
    {
      Tree(nodes, children, values, refs, vals, next)
    }

    function Held(): set<nat>
      reads this
    {
      HeldIn(finds)
    }

    ghost predicate Valid()
      reads this
    {
      Inv(View(), Gone(View(), Held())) && 0 !in Held()
    }

    constructor (handle: nat)
      ensures View() == Init(handle) && finds == map[] && Valid()
    {
      nodes, children, values := map[0 := Node(ROOT_ID, None)], map[], map[];
      refs, vals, next, finds := map[User(handle) := 0], map[], 1, map[];
      new;
      InitInv(handle);
      assert Held() == {};
    }

    method IncrementRefcount(n: nat)
      requires HasEntry(View(), n)
      modifies this`children
      ensures children == Increment(old(View()), n)
    {
      if nodes[n].parent.Some? {
        var k := KeyOf(nodes[n]);
        children := children[k := Child(children[k].refcount + 1, children[k].node)];
      }
    }

    method CloneHandle(on: nat, h: nat)
      requires Valid() && Enabled(View(), Clone(on, h))
      modifies this`children, this`refs
      ensures View() == Step(old(View()), Held(), Clone(on, h)) && Valid()
    {
      EntryExists(View(), Gone(View(), Held()), refs[User(on)]);
      IncrementRefcount(refs[User(on)]);
      refs := refs[User(h) := refs[User(on)]];
    }

    method MakeNonUniqueChild(on: nat, id: MonitorId, h: nat)
      requires Valid() && Enabled(View(), MakeChildOf(on, id, h))
      modifies this`next, this`nodes, this`children, this`refs
      ensures View() == Step(old(View()), Held(), MakeChildOf(on, id, h)) && Valid()
    {
      MakeChildInv(View(), Gone(View(), Held()), refs[User(on)], id, h);
      FindOrCreate(refs[User(on)], id, h);
    }

    method FindOrCreate(p: nat, id: MonitorId, h: nat)
      requires HasEntry(View(), p)
      requires Key(p, id) in children ==> HasEntry(View(), children[Key(p, id)].node)
      modifies this`next, this`nodes, this`children, this`refs
      ensures View() == MakeChild(old(View()), p, id, h)
    {
      if Key(p, id) in children {
        var child := children[Key(p, id)];
        IncrementRefcount(child.node);
        refs := refs[User(h) := child.node];
      } else {
        var m := next;
        next := m + 1;
        IncrementRefcount(p);
        refs := refs[ParentField(m) := p];
        nodes := nodes[m := Node(id, Some(p))];
        children := children[Key(p, id) := Child(1, m)];
        refs := refs[User(h) := m];
      }
    }

    /** Dropping a `StateMonitor` object, and up the tree as long as nodes are freed. */
    method DropRef(r0: Ref)
      requires Droppable(View(), Held(), r0)
      modifies this`nodes, this`children, this`refs
      ensures View() == Release(old(View()), Held(), r0) && Valid()
    {
      var r, done := r0, false;
      while !done
        invariant done ==> View() == Release(old(View()), Held(), r0) && Valid()
        invariant !done ==> Droppable(View(), Held(), r)
        invariant !done ==> Release(View(), Held(), r) == Release(old(View()), Held(), r0)
        decreases if done then 0 else 1 + refs[r]
      {
        UnrefInv(View(), Held(), r);
        var n := refs[r];
        var node := nodes[n];
        DropOne(r);
        if n in nodes || node.parent.None? || n in Held() {
          done := true;
        } else {
          r := ParentField(n);
        }
      }
    }

    method DropOne(r: Ref)
      requires r in refs && HasEntry(View(), refs[r])
      modifies this`nodes, this`children, this`refs
      ensures View() == Unref(old(View()), r)
    {
      var n := refs[r];
      if nodes[n].parent.Some? {
        var k := KeyOf(nodes[n]);
        if children[k].refcount == 1 {
          children := children - {k};
        } else {
          children := children[k := Child(children[k].refcount - 1, children[k].node)];
        }
      }
      refs := refs - {r};
      if Count(refs, n) == 0 { nodes := nodes - {n}; }
    }

    method LocateNode(n: nat, path: seq<MonitorId>) returns (found: Option<nat>)
      ensures found == Locate(View(), n, path)
    {
      var current, i := n, 0;
      while i < |path|
        invariant 0 <= i <= |path|
        invariant Locate(View(), n, path) == Locate(View(), current, path[i..])
      {
        if Key(current, path[i]) !in children { return None; }
        current := children[Key(current, path[i])].node;
        assert path[i..][1..] == path[i + 1..];
        i := i + 1;
      }
      return Some(current);
    }

    /** `locate` begins at the node of the handle. */
    method BeginLocate(on: nat, ticket: nat)
      requires RaceInv(Race(View(), finds)) && User(on) in refs && ticket !in finds
      modifies this`finds
      ensures finds == old(finds)[ticket := Cursor(on, refs[User(on)], nodes[refs[User(on)]])]
    {
      var n := refs[User(on)];
      finds := finds[ticket := Cursor(on, n, nodes[n])];
    }

    method DescendLocate(ticket: nat, id: MonitorId)
      requires RaceInv(Race(View(), finds)) && ticket in finds
      modifies this`nodes, this`children, this`refs, this`finds
      ensures Race(View(), finds) == Descend(old(Race(View(), finds)), ticket, id)
    {
      var c := finds[ticket];
      if Key(c.node, id) in children {
        var n := children[Key(c.node, id)].node;
        finds := finds[ticket := Cursor(c.from, n, nodes[n])];
      } else {
        ghost var x := Race(View(), finds);
        finds := finds - {ticket};
        if c.node !in nodes && c.node !in Held() {
          LetGo(x, ticket);
          DropRef(ParentField(c.node));
        }
      }
    }

    /** The second half of `locate`; `panicked` when the entry to increment is not there. */
    method FinishLocate(ticket: nat, h: nat) returns (panicked: bool)
      requires ticket in finds
      modifies this`children, this`refs, this`finds
      ensures panicked <==> Finish(old(Race(View(), finds)), ticket, h).None?
      ensures !panicked ==> Some(Race(View(), finds)) == Finish(old(Race(View(), finds)), ticket, h)
    {
      var c := finds[ticket];
      if c.record.parent.Some? {
        var k := KeyOf(c.record);
        if k !in children { return true; }
        children := children[k := Child(children[k].refcount + 1, children[k].node)];
      }
      finds := finds - {ticket};
      refs := refs[User(h) := c.node];
      return false;
    }

    method MakeMonitoredValue(on: nat, name: string, v: nat)
      requires Valid() && Enabled(View(), MakeValue(on, name, v))
      modifies this`children, this`refs, this`vals, this`values
      ensures View() == Step(old(View()), Held(), MakeValue(on, name, v)) && Valid()
    {
      AddValueInv(View(), Gone(View(), Held()), v, Slot(refs[User(on)], name));
      PutValue(Slot(refs[User(on)], name), v);
    }

    method CloneMonitoredValue(v: nat, copy: nat)
      requires Valid() && Enabled(View(), CloneValue(v, copy))
      modifies this`children, this`refs, this`vals, this`values
      ensures View() == Step(old(View()), Held(), CloneValue(v, copy)) && Valid()
    {
      AddValueInv(View(), Gone(View(), Held()), copy, vals[v]);
      PutValue(vals[v], copy);
    }

    method PutValue(slot: Slot, v: nat)
      requires HasEntry(View(), slot.node)
      modifies this`children, this`refs, this`vals, this`values
      ensures View() == AddValue(old(View()), v, slot)
    {
      if slot in values {
        values := values[slot := values[slot] + 1];
      } else {
        values := values[slot := 1];
      }
      IncrementRefcount(slot.node);
      refs := refs[OfValue(v) := slot.node];
      vals := vals[v := slot];
    }

    method DropMonitoredValue(v: nat)
      requires Valid() && v in vals
      modifies this`nodes, this`children, this`refs, this`vals, this`values
      ensures View() == DiscardValue(old(View()), Held(), v) && Valid()
    {
      RemoveValueInv(View(), Held(), v);
      TakeOut(v);
      DropRef(OfValue(v));
    }

    method TakeOut(v: nat)
      requires v in vals && vals[v] in values && values[vals[v]] > 0
      modifies this`vals, this`values
      ensures View() == RemoveValue(old(View()), v)
    {
      var slot := vals[v];
      if values[slot] == 1 {
        values := values - {slot};
      } else {
        values := values[slot := values[slot] - 1];
      }
      vals := vals - {v};
    }
  }
}
