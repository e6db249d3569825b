/**
 Monitors after a wrong count (state_monitor/src/lib.rs:154-218, 288-399).

 Module LocateRace says when `locate` gives an entry to the wrong node. Here the monitors go on from
 there. A handle finds its count by the id of its node alone, so an old and a new node with the same
 parent and id share one entry. `record` keeps the immutable part of every node ever made; a node
 other than the root is alive as long as its own parent field is. `None` stands for a panic.
 */
module StaleMonitors {
  import opened Options
  import opened StateMonitor

  /** `arcs`: the nodes at which calls of `locate` stand. */
  datatype World = World(
    record: map<nat, Node>,
    children: map<Key, Child>,
    refs: map<Ref, nat>,
    arcs: map<nat, nat>,
    next: nat)

  function Start(h: nat): World {
    World(map[0 := Node(ROOT_ID, None)], map[], map[User(h) := 0], map[], 1)
  }

  predicate HasKey(record: map<nat, Node>, n: nat, k: Key) {
    n in record && record[n] == Node(k.id, Some(k.node))
  }

  /** The monitors whose node has this key, over all nodes old and new. */
  function Sharers(w: World, k: Key): set<Ref> {
    set r | r in w.refs && HasKey(w.record, w.refs[r], k)
  }

  predicate Referred(w: World, n: nat) {
    (exists r :: r in w.refs && w.refs[r] == n) || (exists t :: t in w.arcs && w.arcs[t] == n)
  }

  // ---------------------------------------------------------------- invariant

  predicate WellFormed(w: World) {
    && (forall n :: n in w.record ==> n < w.next)
    && (forall n {:trigger w.record[n]} :: n in w.record && w.record[n].parent.Some? ==>
          w.record[n].parent.value < n && w.record[n].parent.value in w.record)
    && (forall r :: r in w.refs ==> w.refs[r] in w.record)
    && (forall r :: r in w.refs && r.ParentField? ==>
          r.node in w.record && w.record[r.node].parent == Some(w.refs[r]))
    && (forall t :: t in w.arcs ==> w.arcs[t] in w.record)
    && (forall k :: k in w.children ==> HasKey(w.record, w.children[k].node, k))
  }

  /** The count kept under a key is the number of monitors with that key, and there is none without an entry. */
  ghost predicate KeyCounts(w: World) {
    && (forall k :: k in w.children ==> w.children[k].refcount == |Sharers(w, k)| > 0)
    && (forall k :: k !in w.children ==> |Sharers(w, k)| == 0)
  }

  /** A node has its parent field exactly while something refers to it; `pending` is about to lose it. */
  ghost predicate Lifetimes(w: World, pending: set<nat>) {
    forall n {:trigger w.record[n]} :: n in w.record && w.record[n].parent.Some? ==>
      if n in pending then ParentField(n) in w.refs && !Referred(w, n)
      else ParentField(n) in w.refs <==> Referred(w, n)
  }

  ghost predicate WorldInv(w: World, pending: set<nat>) {
    WellFormed(w) && KeyCounts(w) && Lifetimes(w, pending)
  }

  // ---------------------------------------------------------------- counting

  lemma SharersAdd(w: World, r: Ref, n: nat, k: Key)
    requires r !in w.refs
    ensures |Sharers(w.(refs := w.refs[r := n]), k)| == |Sharers(w, k)| + if HasKey(w.record, n, k) then 1 else 0
  {
    assert Sharers(w.(refs := w.refs[r := n]), k) == Sharers(w, k) + if HasKey(w.record, n, k) then {r} else {};
  }

  lemma SharersRemove(w: World, r: Ref, k: Key)
    requires r in w.refs
    ensures |Sharers(w, k)| ==
      |Sharers(w.(refs := w.refs - {r}), k)| + if HasKey(w.record, w.refs[r], k) then 1 else 0
  {
    var t := w.(refs := w.refs - {r});
    assert Sharers(w, k) == Sharers(t, k) + if HasKey(w.record, w.refs[r], k) then {r} else {};
  }

  lemma SharersOf(w: World, v: World, k: Key)
    requires w.refs == v.refs
    requires forall r :: r in w.refs ==> (HasKey(w.record, w.refs[r], k) <==> HasKey(v.record, w.refs[r], k))
    ensures Sharers(w, k) == Sharers(v, k)
  {
  }

  /** A monitor finds the entry it counts in: `unwrap` and `unreachable!` are safe where there is one. */
  lemma EntryIsThere(w: World, r: Ref)
    requires KeyCounts(w) && r in w.refs && w.refs[r] in w.record && w.record[w.refs[r]].parent.Some?
    ensures KeyOf(w.record[w.refs[r]]) in w.children
  {
    assert r in Sharers(w, KeyOf(w.record[w.refs[r]]));
  }

  // ---------------------------------------------------------------- one more monitor

  /** `increment_refcount`. */
  function Counted(w: World, n: nat): Option<map<Key, Child>>
    requires n in w.record
  {
    var node := w.record[n];
    if node.parent.None? then Some(w.children)
    else if KeyOf(node) !in w.children then None
    else Some(w.children[KeyOf(node) := Child(w.children[KeyOf(node)].refcount + 1, w.children[KeyOf(node)].node)])
  }

  /** A new monitor of `n`. */
  function Gain(w: World, r: Ref, n: nat): Option<World>
    requires n in w.record
  {
    match Counted(w, n)
    case None => None
    case Some(children) => Some(w.(children := children, refs := w.refs[r := n]))
  }

  lemma GainCounts(w: World, r: Ref, n: nat)
    requires KeyCounts(w) && n in w.record && r !in w.refs && Gain(w, r, n).Some?
    ensures KeyCounts(Gain(w, r, n).value)
  {
    var t := Gain(w, r, n).value;
    forall k ensures |Sharers(t, k)| == |Sharers(w, k)| + if HasKey(w.record, n, k) then 1 else 0 {
      SharersAdd(w, r, n, k);
      SharersOf(t, w.(refs := w.refs[r := n]), k);
    }
  }

  lemma GainLifetimes(w: World, r: Ref, n: nat)
    requires Lifetimes(w, {}) && n in w.record && r !in w.refs && !r.ParentField? && Referred(w, n)
    requires Gain(w, r, n).Some?
    ensures Lifetimes(Gain(w, r, n).value, {})
  {
    var t := Gain(w, r, n).value;
    forall m ensures Referred(t, m) <==> Referred(w, m) { GainReferred(w, r, n, m); }
  }

  lemma GainReferred(w: World, r: Ref, n: nat, m: nat)
    requires n in w.record && r !in w.refs && Gain(w, r, n).Some? && Referred(w, n)
    ensures Referred(Gain(w, r, n).value, m) <==> Referred(w, m)
  {
    var t := Gain(w, r, n).value;
    if q :| q in w.refs && w.refs[q] == m { assert q in t.refs && t.refs[q] == m; }
  }

  lemma GainForm(w: World, r: Ref, n: nat)
    requires WellFormed(w) && n in w.record && !r.ParentField? && Gain(w, r, n).Some?
    ensures WellFormed(Gain(w, r, n).value)
  {
  }

  /** A clone, or a value's monitor. */
  lemma GainInv(w: World, r: Ref, n: nat)
    requires WorldInv(w, {}) && r !in w.refs && !r.ParentField? && n in w.record && Referred(w, n)
    requires Gain(w, r, n).Some?
    ensures WorldInv(Gain(w, r, n).value, {})
  {
    GainForm(w, r, n);
    GainCounts(w, r, n);
    GainLifetimes(w, r, n);
  }

  // ---------------------------------------------------------------- one monitor less

  /** `drop` up to the parent's map: decrement, and remove the entry at zero. */
  function Uncounted(w: World, n: nat): map<Key, Child>
    requires n in w.record && (w.record[n].parent.Some? ==> KeyOf(w.record[n]) in w.children)
  {
    if w.record[n].parent.None? then w.children
    else
      var k := KeyOf(w.record[n]);
      if w.children[k].refcount <= 1 then w.children - {k}
      else w.children[k := Child(w.children[k].refcount - 1, w.children[k].node)]
  }

  function Lose(w: World, r: Ref): World
    requires r in w.refs && w.refs[r] in w.record
    requires w.record[w.refs[r]].parent.Some? ==> KeyOf(w.record[w.refs[r]]) in w.children
  {
    w.(children := Uncounted(w, w.refs[r]), refs := w.refs - {r})
  }

  function Pending(r: Ref): set<nat> { if r.ParentField? then {r.node} else {} }

  /** The node that has just lost its last reference. */
  function Dead(w: World, n: nat): set<nat>
    requires n in w.record
  {
    if w.record[n].parent.None? || Referred(w, n) then {} else {n}
  }

  lemma LoseForm(w: World, r: Ref)
    requires WellFormed(w) && r in w.refs
    requires w.record[w.refs[r]].parent.Some? ==> KeyOf(w.record[w.refs[r]]) in w.children
    ensures WellFormed(Lose(w, r))
  {
  }

  lemma LoseTally(w: World, r: Ref, k: Key)
    requires r in w.refs && w.refs[r] in w.record
    requires w.record[w.refs[r]].parent.Some? ==> KeyOf(w.record[w.refs[r]]) in w.children
    ensures |Sharers(w, k)| == |Sharers(Lose(w, r), k)| + if HasKey(w.record, w.refs[r], k) then 1 else 0
  {
    SharersRemove(w, r, k);
    SharersOf(Lose(w, r), w.(refs := w.refs - {r}), k);
  }

  lemma LoseCounts(w: World, r: Ref)
    requires KeyCounts(w) && r in w.refs && w.refs[r] in w.record
    requires w.record[w.refs[r]].parent.Some? ==> KeyOf(w.record[w.refs[r]]) in w.children
    ensures KeyCounts(Lose(w, r))
  {
    forall k ensures |Sharers(w, k)| == |Sharers(Lose(w, r), k)| + if HasKey(w.record, w.refs[r], k) then 1 else 0 {
      LoseTally(w, r, k);
    }
  }

  lemma LoseReferred(w: World, r: Ref, m: nat)
    requires r in w.refs && w.refs[r] in w.record && m != w.refs[r]
    requires w.record[w.refs[r]].parent.Some? ==> KeyOf(w.record[w.refs[r]]) in w.children
    ensures Referred(Lose(w, r), m) <==> Referred(w, m)
  {
    var t := Lose(w, r);
    if q :| q in w.refs && w.refs[q] == m { assert q in t.refs && t.refs[q] == m; }
  }

  lemma LoseLifetimes(w: World, r: Ref)
    requires WellFormed(w) && Lifetimes(w, Pending(r)) && r in w.refs
    requires w.record[w.refs[r]].parent.Some? ==> KeyOf(w.record[w.refs[r]]) in w.children
    ensures Lifetimes(Lose(w, r), Dead(Lose(w, r), w.refs[r]))
  {
    var t, n := Lose(w, r), w.refs[r];
    forall m | m in t.record && t.record[m].parent.Some?
      ensures if m in Dead(t, n) then ParentField(m) in t.refs && !Referred(t, m)
              else ParentField(m) in t.refs <==> Referred(t, m)
    {
      if m == n {
        assert Referred(w, n);
      } else {
        LoseReferred(w, r, m);
      }
    }
  }

  lemma LoseInv(w: World, r: Ref)
    requires WorldInv(w, Pending(r)) && r in w.refs
    ensures w.record[w.refs[r]].parent.Some? ==> KeyOf(w.record[w.refs[r]]) in w.children
    ensures WorldInv(Lose(w, r), Dead(Lose(w, r), w.refs[r]))
  {
    if w.record[w.refs[r]].parent.Some? { EntryIsThere(w, r); }
    LoseForm(w, r);
    LoseCounts(w, r);
    LoseLifetimes(w, r);
  }

  /** `drop`, and up the tree as long as nodes die. It never finds its entry missing, wrong counts or not. */
  function Discard(w: World, r: Ref): (t: World)
    requires WorldInv(w, Pending(r)) && r in w.refs
    ensures WorldInv(t, {})
    decreases w.refs[r]
  {
    LoseInv(w, r);
    var n, t := w.refs[r], Lose(w, r);
    if Dead(t, n) == {} then t else Discard(t, ParentField(n))
  }

  // ---------------------------------------------------------------- a new node

  /** `make_non_unique_child` where there is no entry. */
  function Bear(w: World, p: nat, id: MonitorId, h: nat): Option<World>
    requires p in w.record
  {
    match Counted(w, p)
    case None => None
    case Some(children) =>
      Some(World(w.record[w.next := Node(id, Some(p))], children[Key(p, id) := Child(1, w.next)],
                 w.refs[ParentField(w.next) := p][User(h) := w.next], w.arcs, w.next + 1))
  }

  lemma BearTally(w: World, p: nat, id: MonitorId, h: nat, k: Key)
    requires WellFormed(w) && p in w.record && User(h) !in w.refs && Bear(w, p, id, h).Some?
    ensures |Sharers(Bear(w, p, id, h).value, k)| ==
      |Sharers(w, k)| + (if HasKey(w.record, p, k) then 1 else 0) + if k == Key(p, id) then 1 else 0
  {
    var m, t := w.next, Bear(w, p, id, h).value;
    var v := w.(record := t.record);
    assert forall r :: r in w.refs ==> w.refs[r] != m;
    SharersOf(w, v, k);
    var u := v.(refs := v.refs[ParentField(m) := p]);
    assert ParentField(m) !in w.refs && p != m;
    SharersAdd(v, ParentField(m), p, k);
    SharersAdd(u, User(h), m, k);
    SharersOf(t, u.(refs := u.refs[User(h) := m]), k);
  }

  lemma BearCounts(w: World, p: nat, id: MonitorId, h: nat)
    requires WellFormed(w) && KeyCounts(w) && p in w.record && Key(p, id) !in w.children
    requires User(h) !in w.refs && Bear(w, p, id, h).Some?
    ensures KeyCounts(Bear(w, p, id, h).value)
  {
    var t := Bear(w, p, id, h).value;
    assert w.record[p].parent.Some? ==> KeyOf(w.record[p]) != Key(p, id);
    forall k ensures k in t.children ==> t.children[k].refcount == |Sharers(t, k)| > 0
      ensures k !in t.children ==> |Sharers(t, k)| == 0
    {
      BearTally(w, p, id, h, k);
    }
  }

  lemma BearForm(w: World, p: nat, id: MonitorId, h: nat)
    requires WellFormed(w) && p in w.record && Bear(w, p, id, h).Some?
    ensures WellFormed(Bear(w, p, id, h).value)
  {
  }

  lemma BearReferred(w: World, p: nat, id: MonitorId, h: nat, n: nat)
    requires WellFormed(w) && p in w.record && User(h) !in w.refs && Bear(w, p, id, h).Some? && Referred(w, p)
    ensures Referred(Bear(w, p, id, h).value, n) <==> Referred(w, n) || n == w.next
  {
    var t := Bear(w, p, id, h).value;
    assert t.refs[User(h)] == w.next;
    if q :| q in w.refs && w.refs[q] == n { assert q in t.refs && t.refs[q] == n; }
  }

  lemma BearLifetimes(w: World, p: nat, id: MonitorId, h: nat)
    requires WellFormed(w) && Lifetimes(w, {}) && p in w.record && Referred(w, p)
    requires User(h) !in w.refs && Bear(w, p, id, h).Some?
    ensures Lifetimes(Bear(w, p, id, h).value, {})
  {
    var t := Bear(w, p, id, h).value;
    forall n | n in t.record && t.record[n].parent.Some? ensures ParentField(n) in t.refs <==> Referred(t, n) {
      BearReferred(w, p, id, h, n);
    }
  }

  lemma BearInv(w: World, p: nat, id: MonitorId, h: nat)
    requires WorldInv(w, {}) && p in w.record && Referred(w, p) && Key(p, id) !in w.children
    requires User(h) !in w.refs && Bear(w, p, id, h).Some?
    ensures WorldInv(Bear(w, p, id, h).value, {})
  {
    BearForm(w, p, id, h);
    BearCounts(w, p, id, h);
    BearLifetimes(w, p, id, h);
  }

  // ---------------------------------------------------------------- calls of locate

  lemma PointInv(w: World, t: nat, n: nat)
    requires WorldInv(w, {}) && n in w.record && Referred(w, n)
    requires t in w.arcs ==> Referred(w.(arcs := w.arcs - {t}), w.arcs[t])
    ensures WorldInv(w.(arcs := w.arcs[t := n]), {})
  {
    var v := w.(arcs := w.arcs[t := n]);
    forall k ensures Sharers(v, k) == Sharers(w, k) { SharersOf(v, w, k); }
    forall m ensures Referred(v, m) <==> Referred(w, m) { PointReferred(w, t, n, m); }
  }

  lemma PointReferred(w: World, t: nat, n: nat, m: nat)
    requires Referred(w, n) && (t in w.arcs ==> Referred(w.(arcs := w.arcs - {t}), w.arcs[t]))
    ensures Referred(w.(arcs := w.arcs[t := n]), m) <==> Referred(w, m)
  {
    var v := w.(arcs := w.arcs[t := n]);
    assert v.arcs[t] == n;
    if u :| u in w.arcs && w.arcs[u] == m {
      if u != t {
        assert u in v.arcs && v.arcs[u] == m;
      } else if u' :| u' in (w.arcs - {t}) && w.arcs[u'] == m {
        assert u' in v.arcs && v.arcs[u'] == m;
      }
    }
  }

  lemma LeaveReferred(w: World, t: nat, m: nat)
    requires t in w.arcs && m != w.arcs[t]
    ensures Referred(w.(arcs := w.arcs - {t}), m) <==> Referred(w, m)
  {
    var v := w.(arcs := w.arcs - {t});
    if u :| u in w.arcs && w.arcs[u] == m { assert u in v.arcs && v.arcs[u] == m; }
  }

  /** A call lets go of its node. */
  lemma LeaveInv(w: World, t: nat)
    requires WorldInv(w, {}) && t in w.arcs
    ensures var v := w.(arcs := w.arcs - {t}); WorldInv(v, Dead(v, w.arcs[t]))
  {
    var v, n := w.(arcs := w.arcs - {t}), w.arcs[t];
    forall k ensures Sharers(v, k) == Sharers(w, k) { SharersOf(v, w, k); }
    forall m | m in v.record && v.record[m].parent.Some?
      ensures if m in Dead(v, n) then ParentField(m) in v.refs && !Referred(v, m)
              else ParentField(m) in v.refs <==> Referred(v, m)
    {
      if m == n { assert Referred(w, n); } else { LeaveReferred(w, t, m); }
    }
  }

  function Leave(w: World, t: nat): (v: World)
    requires WorldInv(w, {}) && t in w.arcs
    ensures WorldInv(v, {})
  {
    LeaveInv(w, t);
    var v, n := w.(arcs := w.arcs - {t}), w.arcs[t];
    if Dead(v, n) == {} then v else Discard(v, ParentField(n))
  }

  // ---------------------------------------------------------------- steps

  datatype Deed =
    | Make(on: nat, id: MonitorId, h: nat)
    | Copy(from: Ref, to: Ref)             // a clone, or the monitor of a value
    | Forget(r: Ref)
    | Begin(on: nat, ticket: nat)
    | Level(ticket: nat, id: MonitorId)
    | Complete(ticket: nat, h: nat)

  predicate Possible(w: World, d: Deed) {
    match d
    case Make(on, _, h) => User(on) in w.refs && User(h) !in w.refs
    case Copy(from, to) => from in w.refs && to !in w.refs && !from.ParentField? && !to.ParentField?
    case Forget(r) => r in w.refs && !r.ParentField?
    case Begin(on, ticket) => User(on) in w.refs && ticket !in w.arcs
    case Level(ticket, _) => ticket in w.arcs
    case Complete(ticket, h) => ticket in w.arcs && User(h) !in w.refs
  }

  /** `upgrade` of the weak reference in an entry succeeds. */
  predicate Upgrades(w: World, k: Key)
    requires k in w.children
  {
    ParentField(w.children[k].node) in w.refs
  }

  function Perform(w: World, d: Deed): Option<World>
    requires WorldInv(w, {})
  {
    if !Possible(w, d) then Some(w) else
    match d
    case Make(on, id, h) =>
      var k := Key(w.refs[User(on)], id);
      if k !in w.children then Bear(w, k.node, id, h)
      else if Upgrades(w, k) then Gain(w, User(h), w.children[k].node) else None
    case Copy(from, to) => Gain(w, to, w.refs[from])
    case Forget(r) => Some(Discard(w, r))
    case Begin(on, ticket) => Some(w.(arcs := w.arcs[ticket := w.refs[User(on)]]))
    case Level(ticket, id) =>
      var k := Key(w.arcs[ticket], id);
      if k !in w.children then Some(Leave(w, ticket))
      else if Upgrades(w, k) then Some(w.(arcs := w.arcs[ticket := w.children[k].node])) else None
    case Complete(ticket, h) =>
      match Gain(w, User(h), w.arcs[ticket])
      case None => None
      case Some(v) => Some(v.(arcs := w.arcs - {ticket}))
  }

  lemma MakeKeeps(w: World, on: nat, id: MonitorId, h: nat)
    requires WorldInv(w, {}) && Possible(w, Make(on, id, h)) && Perform(w, Make(on, id, h)).Some?
    ensures WorldInv(Perform(w, Make(on, id, h)).value, {})
  {
    var p := w.refs[User(on)];
    var k := Key(p, id);
    assert Referred(w, p);
    if k in w.children {
      assert Referred(w, w.children[k].node);
      GainInv(w, User(h), w.children[k].node);
    } else {
      BearInv(w, p, id, h);
    }
  }

  lemma LevelKeeps(w: World, ticket: nat, id: MonitorId)
    requires WorldInv(w, {}) && ticket in w.arcs && Perform(w, Level(ticket, id)).Some?
    ensures WorldInv(Perform(w, Level(ticket, id)).value, {})
  {
    var k := Key(w.arcs[ticket], id);
    if k in w.children {
      var n := w.children[k].node;
      assert Referred(w, n) && w.refs[ParentField(n)] == w.arcs[ticket];
      PointInv(w, ticket, n);
    }
  }

  lemma CompleteKeeps(w: World, ticket: nat, h: nat)
    requires WorldInv(w, {}) && Possible(w, Complete(ticket, h)) && Perform(w, Complete(ticket, h)).Some?
    ensures WorldInv(Perform(w, Complete(ticket, h)).value, {})
  {
    var n := w.arcs[ticket];
    assert Referred(w, n);
    GainInv(w, User(h), n);
    var v := Gain(w, User(h), n).value;
    assert v.refs[User(h)] == n;
    assert Referred(v.(arcs := v.arcs - {ticket}), n);
    LeaveInv(v, ticket);
  }

  lemma PerformKeeps(w: World, d: Deed)
    requires WorldInv(w, {})
    ensures Perform(w, d).Some? ==> WorldInv(Perform(w, d).value, {})
  {
    if Possible(w, d) && Perform(w, d).Some? {
      match d
      case Make(on, id, h) => MakeKeeps(w, on, id, h);
      case Copy(from, to) =>
        assert Referred(w, w.refs[from]);
        GainInv(w, to, w.refs[from]);
      case Forget(_) =>
      case Begin(on, ticket) =>
        assert Referred(w, w.refs[User(on)]);
        PointInv(w, ticket, w.refs[User(on)]);
      case Level(ticket, id) => LevelKeeps(w, ticket, id);
      case Complete(ticket, h) => CompleteKeeps(w, ticket, h);
    }
  }

  // ---------------------------------------------------------------- runs

  lemma StartInv(h: nat)
    ensures WorldInv(Start(h), {})
  {
    forall k ensures Sharers(Start(h), k) == {} {}
  }

  ghost function WorldAfter(h: nat, run: seq<Deed>): (r: Option<World>)
    ensures r.Some? ==> WorldInv(r.value, {})
  {
    if run == [] then
      StartInv(h);
      Some(Start(h))
    else
      var before, last := WorldAfter(h, run[..|run| - 1]), run[|run| - 1];
      if before.None? then None
      else
        PerformKeeps(before.value, last);
        Perform(before.value, last)
  }

  /**
   Whatever `locate` has miscounted: as long as nothing has panicked, the count under a key is the
   number of monitors whose node has that key, and there is an entry exactly if there is one.
   */
  lemma CountsPerKey(h: nat, run: seq<Deed>, k: Key)
    requires WorldAfter(h, run).Some?
    ensures var w := WorldAfter(h, run).value;
      (k in w.children <==> Sharers(w, k) != {}) && (k in w.children ==> w.children[k].refcount == |Sharers(w, k)|)
  {
    var w := WorldAfter(h, run).value;
    if Sharers(w, k) == {} { assert |Sharers(w, k)| == 0; }
  }

  /** An entry whose node is gone: all monitors counted in it belong to other nodes. */
  ghost predicate Stale(w: World, k: Key) {
    k in w.children && !Referred(w, w.children[k].node)
  }

  lemma UpgradesIff(w: World, k: Key)
    requires WorldInv(w, {}) && k in w.children
    ensures Upgrades(w, k) <==> !Stale(w, k)
  {
    assert w.record[w.children[k].node].parent.Some?;
  }

  lemma GainPanicsIff(w: World, r: Ref, n: nat)
    requires WorldInv(w, {}) && n in w.record
    ensures Gain(w, r, n).None? <==> w.record[n].parent.Some? && Sharers(w, KeyOf(w.record[n])) == {}
  {
  }

  lemma ReferredGains(w: World, q: Ref, r: Ref)
    requires WorldInv(w, {}) && q in w.refs
    ensures Gain(w, r, w.refs[q]).Some? && forall id, h :: Bear(w, w.refs[q], id, h).Some?
  {
    if w.record[w.refs[q]].parent.Some? { EntryIsThere(w, q); }
  }

  /**
   Exactly which steps panic, from any reachable point. Clones, values and drops never do. Making a
   child and one level of `locate` do if the entry they meet is stale. The last step of `locate` does if
   no monitor with the key of its node is left.
   */
  lemma PanicIff(h: nat, run: seq<Deed>, d: Deed)
    requires WorldAfter(h, run).Some? && Possible(WorldAfter(h, run).value, d)
    ensures var w := WorldAfter(h, run).value;
      Perform(w, d).None? <==>
        match d
        case Make(on, id, _) => Stale(w, Key(w.refs[User(on)], id))
        case Level(ticket, id) => Stale(w, Key(w.arcs[ticket], id))
        case Complete(ticket, _) =>
          w.record[w.arcs[ticket]].parent.Some? && Sharers(w, KeyOf(w.record[w.arcs[ticket]])) == {}
        case _ => false
  {
    var w := WorldAfter(h, run).value;
    match d
    case Make(on, id, h') =>
      var k := Key(w.refs[User(on)], id);
      ReferredGains(w, User(on), User(h'));
      if k in w.children { MakePanicsIff(w, k, h'); }
    case Copy(from, to) => ReferredGains(w, from, to);
    case Level(ticket, id) =>
      if Key(w.arcs[ticket], id) in w.children { UpgradesIff(w, Key(w.arcs[ticket], id)); }
    case Complete(ticket, h') => GainPanicsIff(w, User(h'), w.arcs[ticket]);
    case _ =>
  }

  lemma MakePanicsIff(w: World, k: Key, h: nat)
    requires WorldInv(w, {}) && k in w.children
    ensures Gain(w, User(h), w.children[k].node).Some?
    ensures Upgrades(w, k) <==> !Stale(w, k)
  {
    UpgradesIff(w, k);
  }

  // ---------------------------------------------------------------- how an entry becomes stale

  /** What dropping leaves alone: it takes references away, and entries of the node and its ancestors. */
  ghost predicate Sheds(w: World, t: World, r: Ref) {
    && t.arcs == w.arcs && t.record == w.record
    && (forall q :: q in t.refs ==> q in w.refs && q != r && t.refs[q] == w.refs[q])
  }

  ghost predicate SameEntry(w: World, t: World, k: Key) {
    (k in t.children <==> k in w.children) && (k in t.children ==> t.children[k] == w.children[k])
  }

  lemma LoseFrame(w: World, r: Ref, k: Key)
    requires WellFormed(w) && r in w.refs && k.node >= w.refs[r]
    requires w.record[w.refs[r]].parent.Some? ==> KeyOf(w.record[w.refs[r]]) in w.children
    ensures Sheds(w, Lose(w, r), r) && SameEntry(w, Lose(w, r), k)
  {
  }

  lemma {:induction false} DiscardFrame(w: World, r: Ref, k: Key)
    requires WorldInv(w, Pending(r)) && r in w.refs && k.node >= w.refs[r]
    ensures Sheds(w, Discard(w, r), r) && SameEntry(w, Discard(w, r), k)
    decreases w.refs[r]
  {
    LoseInv(w, r);
    LoseFrame(w, r, k);
    var n, t := w.refs[r], Lose(w, r);
    if Dead(t, n) != {} {
      assert t.refs[ParentField(n)] < n;
      DiscardFrame(t, ParentField(n), k);
    }
  }

  lemma {:induction false} DiscardKeeps(w: World, r: Ref, q: Ref)
    requires WorldInv(w, Pending(r)) && r in w.refs && q in w.refs && q != r && !q.ParentField?
    ensures q in Discard(w, r).refs
    decreases w.refs[r]
  {
    LoseInv(w, r);
    var n, t := w.refs[r], Lose(w, r);
    if Dead(t, n) != {} {
      assert t.refs[ParentField(n)] < n;
      DiscardKeeps(t, ParentField(n), q);
    }
  }

  /** A monitor that is all that keeps the node of its entry. */
  ghost predicate LastOf(w: World, r: Ref, k: Key) {
    && r in w.refs && k in w.children && w.refs[r] == w.children[k].node
    && (forall q :: q in w.refs && w.refs[q] == w.refs[r] ==> q == r)
    && (forall t :: t in w.arcs ==> w.arcs[t] != w.refs[r])
  }

  lemma LoseLast(w: World, r: Ref, k: Key)
    requires WorldInv(w, {}) && LastOf(w, r, k) && !r.ParentField?
    ensures Dead(Lose(w, r), w.refs[r]) == {w.refs[r]} && WorldInv(Lose(w, r), {w.refs[r]})
    ensures Discard(w, r) == Discard(Lose(w, r), ParentField(w.refs[r]))
  {
    LoseInv(w, r);
  }

  lemma LastEntry(w: World, r: Ref, k: Key)
    requires WellFormed(w) && KeyCounts(w) && LastOf(w, r, k)
    ensures k in Lose(w, r).children <==> Sharers(w, k) != {r}
    ensures k in Lose(w, r).children ==> Lose(w, r).children[k].node == w.refs[r]
  {
    assert r in Sharers(w, k);
    if Sharers(w, k) != {r} {
      assert Sharers(w, k) == Sharers(w, k) - {r} + {r};
      var q :| q in Sharers(w, k) - {r};
    }
  }

  /** Dropping it leaves a stale entry exactly if some monitor of another node counts in the same entry. */
  lemma LastLeavesStale(w: World, r: Ref, k: Key)
    requires WorldInv(w, {}) && LastOf(w, r, k) && !r.ParentField?
    ensures Stale(Discard(w, r), k) <==> Sharers(w, k) != {r}
  {
    LoseLast(w, r, k);
    LastEntry(w, r, k);
    DiscardFrame(Lose(w, r), ParentField(w.refs[r]), k);
  }

  // ---------------------------------------------------------------- what a step returns

  lemma LeaveFrame(w: World, t: nat)
    requires WorldInv(w, {}) && t in w.arcs
    ensures t !in Leave(w, t).arcs
  {
    LeaveInv(w, t);
    var v, n := w.(arcs := w.arcs - {t}), w.arcs[t];
    if Dead(v, n) != {} { DiscardFrame(v, ParentField(n), Key(v.refs[ParentField(n)], ROOT_ID)); }
  }

  /** The handles and nodes that the operations return, wrong counts or not. */
  lemma PerformReturns(w: World, d: Deed)
    requires WorldInv(w, {}) && Possible(w, d) && Perform(w, d).Some?
    ensures var v := Perform(w, d).value;
      match d
      case Make(on, id, h) => User(h) in v.refs && HasKey(v.record, v.refs[User(h)], Key(w.refs[User(on)], id))
      case Copy(from, to) => to in v.refs && v.refs[to] == w.refs[from]
      case Forget(r) => r !in v.refs
      case Begin(on, ticket) => ticket in v.arcs && v.arcs[ticket] == w.refs[User(on)]
      case Level(ticket, id) =>
        if Key(w.arcs[ticket], id) in w.children
        then ticket in v.arcs && HasKey(v.record, v.arcs[ticket], Key(w.arcs[ticket], id))
        else ticket !in v.arcs
      case Complete(ticket, h) => ticket !in v.arcs && User(h) in v.refs && v.refs[User(h)] == w.arcs[ticket]
  {
    match d
    case Forget(r) => DiscardFrame(w, r, Key(w.refs[r], ROOT_ID));
    case Level(ticket, id) => if Key(w.arcs[ticket], id) !in w.children { LeaveFrame(w, ticket); }
    case _ =>
  }

  // ---------------------------------------------------------------- a schedule that gets there

  /** Handle `on` at node `p`, a call `t` of `locate` on it, handles made for the child `id`. */
  datatype Cast = Cast(on: nat, p: nat, id: MonitorId, t: nat, a: nat, b: nat, c: nat, d: nat)

  function EntryOf(s: Cast): Key { Key(s.p, s.id) }

  /**
   `a` makes the child; `locate` reaches it; `a` is dropped, and the entry with it; `b` makes the child
   anew; `locate` counts its handle `c` in the new entry; `b` is dropped.
   */
  function Schedule(s: Cast): seq<Deed> {
    [Make(s.on, s.id, s.a), Begin(s.on, s.t), Level(s.t, s.id), Forget(User(s.a)),
     Make(s.on, s.id, s.b), Complete(s.t, s.c), Forget(User(s.b))]
  }

  ghost predicate OnStage(w: World, s: Cast) {
    && User(s.on) in w.refs && w.refs[User(s.on)] == s.p && User(s.d) !in w.refs
    && s.on != s.a && s.on != s.b
    && s.a != s.b && s.a != s.c && s.a != s.d && s.b != s.c && s.b != s.d && s.c != s.d
  }

  ghost predicate Counts(w: World, s: Cast, h: nat) {
    User(h) in w.refs && EntryOf(s) in w.children && w.children[EntryOf(s)] == Child(1, w.refs[User(h)])
  }

  ghost predicate Away(w: World, s: Cast) { User(s.b) !in w.refs && User(s.c) !in w.refs }

  ghost predicate Waits(w: World, s: Cast) { s.t in w.arcs && HasKey(w.record, w.arcs[s.t], EntryOf(s)) }

  /** What holds before deed number `i` of the schedule. */
  ghost predicate Stage(w: World, s: Cast, i: nat) {
    && OnStage(w, s)
    && (i == 0 ==> EntryOf(s) !in w.children && s.t !in w.arcs && User(s.a) !in w.refs && Away(w, s))
    && (i == 1 ==> Counts(w, s, s.a) && s.t !in w.arcs && Away(w, s))
    && (i == 2 ==> Counts(w, s, s.a) && s.t in w.arcs && w.arcs[s.t] == s.p && Away(w, s))
    && (i == 3 ==> Counts(w, s, s.a) && s.t in w.arcs && w.arcs[s.t] == w.refs[User(s.a)] && Away(w, s))
    && (i == 4 ==> EntryOf(s) !in w.children && Waits(w, s) && Away(w, s))
    && (i == 5 ==> LastOf(w, User(s.b), EntryOf(s)) && Waits(w, s) && User(s.c) !in w.refs)
    && (i == 6 ==> LastOf(w, User(s.b), EntryOf(s)) && User(s.c) in Sharers(w, EntryOf(s)))
    && (i == 7 ==> Stale(w, EntryOf(s)))
  }

  lemma Act0(w: World, s: Cast) returns (v: World)
    requires WorldInv(w, {}) && Stage(w, s, 0)
    ensures Perform(w, Schedule(s)[0]) == Some(v) && Stage(v, s, 1)
  {
    ReferredGains(w, User(s.on), User(s.a));
    v := Bear(w, s.p, s.id, s.a).value;
  }

  lemma Act1(w: World, s: Cast) returns (v: World)
    requires WorldInv(w, {}) && Stage(w, s, 1)
    ensures Perform(w, Schedule(s)[1]) == Some(v) && Stage(v, s, 2)
  {
    v := w.(arcs := w.arcs[s.t := s.p]);
  }

  lemma Act2(w: World, s: Cast) returns (v: World)
    requires WorldInv(w, {}) && Stage(w, s, 2)
    ensures Perform(w, Schedule(s)[2]) == Some(v) && Stage(v, s, 3)
  {
    assert Referred(w, w.refs[User(s.a)]);
    UpgradesIff(w, EntryOf(s));
    v := w.(arcs := w.arcs[s.t := w.refs[User(s.a)]]);
  }

  lemma Act3(w: World, s: Cast) returns (v: World)
    requires WorldInv(w, {}) && Stage(w, s, 3)
    ensures Perform(w, Schedule(s)[3]) == Some(v) && Stage(v, s, 4)
  {
    LoseInv(w, User(s.a));
    v := Lose(w, User(s.a));
    assert v.arcs[s.t] == w.refs[User(s.a)];
    assert Referred(v, w.refs[User(s.a)]);
  }

  lemma Act4(w: World, s: Cast) returns (v: World)
    requires WorldInv(w, {}) && Stage(w, s, 4)
    ensures Perform(w, Schedule(s)[4]) == Some(v) && Stage(v, s, 5)
  {
    ReferredGains(w, User(s.on), User(s.b));
    v := Bear(w, s.p, s.id, s.b).value;
  }

  lemma FinishStep(w: World, t: nat, c: nat) returns (v: World)
    requires WorldInv(w, {}) && t in w.arcs && User(c) !in w.refs && w.record[w.arcs[t]].parent.Some?
    requires KeyOf(w.record[w.arcs[t]]) in w.children
    ensures Perform(w, Complete(t, c)) == Some(v)
    ensures v.record == w.record && v.refs == w.refs[User(c) := w.arcs[t]] && v.arcs == w.arcs - {t}
    ensures forall k :: k in w.children ==> k in v.children && v.children[k].node == w.children[k].node
  {
    v := Gain(w, User(c), w.arcs[t]).value.(arcs := w.arcs - {t});
  }

  lemma Act5(w: World, s: Cast) returns (v: World)
    requires WorldInv(w, {}) && Stage(w, s, 5)
    ensures Perform(w, Schedule(s)[5]) == Some(v) && Stage(v, s, 6)
  {
    v := FinishStep(w, s.t, s.c);
  }

  lemma StageStays(w: World, s: Cast)
    requires WorldInv(w, {}) && OnStage(w, s) && User(s.b) in w.refs
    ensures OnStage(Discard(w, User(s.b)), s)
  {
    DiscardKeeps(w, User(s.b), User(s.on));
    DiscardFrame(w, User(s.b), Key(w.refs[User(s.b)], s.id));
  }

  lemma ForgetStep(w: World, r: Ref)
    requires WorldInv(w, {}) && r in w.refs && !r.ParentField?
    ensures Perform(w, Forget(r)) == Some(Discard(w, r))
  {
  }

  lemma Others(rs: set<Ref>, b: nat, c: nat)
    requires User(c) in rs && b != c
    ensures rs != {User(b)}
  {
    assert User(c) !in {User(b)};
  }

  lemma Act6(w: World, s: Cast) returns (v: World)
    requires WorldInv(w, {}) && Stage(w, s, 6)
    ensures Perform(w, Schedule(s)[6]) == Some(v) && Stage(v, s, 7)
  {
    Others(Sharers(w, EntryOf(s)), s.b, s.c);
    LastLeavesStale(w, User(s.b), EntryOf(s));
    StageStays(w, s);
    ForgetStep(w, User(s.b));
    v := Discard(w, User(s.b));
  }

  lemma Act(w: World, s: Cast, i: nat) returns (v: World)
    requires WorldInv(w, {}) && i < 7 && Stage(w, s, i)
    ensures Perform(w, Schedule(s)[i]) == Some(v) && Stage(v, s, i + 1)
  {
    match i
    case 0 => v := Act0(w, s);
    case 1 => v := Act1(w, s);
    case 2 => v := Act2(w, s);
    case 3 => v := Act3(w, s);
    case 4 => v := Act4(w, s);
    case 5 => v := Act5(w, s);
    case _ => v := Act6(w, s);
  }

  lemma Next(h: nat, run: seq<Deed>, d: Deed)
    requires WorldAfter(h, run).Some? && Perform(WorldAfter(h, run).value, d).Some?
    ensures WorldAfter(h, run + [d]) == Perform(WorldAfter(h, run).value, d)
  {
    assert (run + [d])[..|run|] == run;
  }

  ghost predicate Played(h: nat, run: seq<Deed>, s: Cast, i: nat) {
    WorldAfter(h, run).Some? && Stage(WorldAfter(h, run).value, s, i)
  }

  lemma PlayOne(h: nat, run: seq<Deed>, s: Cast, i: nat)
    requires i < 7 && Played(h, run, s, i)
    ensures Played(h, run + [Schedule(s)[i]], s, i + 1)
  {
    var v := Act(WorldAfter(h, run).value, s, i);
    Next(h, run, Schedule(s)[i]);
  }

  lemma Longer<T>(run: seq<T>, deeds: seq<T>, i: nat)
    requires i < |deeds|
    ensures run + deeds[..i] + [deeds[i]] == run + deeds[..i + 1]
  {
  }

  lemma {:induction false} Play(h: nat, run: seq<Deed>, s: Cast, i: nat) returns (all: seq<Deed>)
    requires i <= 7 && Played(h, run, s, 0)
    ensures all == run + Schedule(s)[..i] && Played(h, all, s, i)
  {
    if i == 0 {
      all := run;
    } else {
      var most := Play(h, run, s, i - 1);
      PlayOne(h, most, s, i - 1);
      Longer(run, Schedule(s), i - 1);
      all := most + [Schedule(s)[i - 1]];
    }
  }

  /**
   From every reachable point and every handle without a child of the id, the schedule runs without a
   panic, and then making the child once more panics.
   */
  lemma ScheduleStales(h: nat, run: seq<Deed>, s: Cast)
    requires Played(h, run, s, 0)
    ensures var w := WorldAfter(h, run + Schedule(s));
      w.Some? && Possible(w.value, Make(s.on, s.id, s.d)) && Perform(w.value, Make(s.on, s.id, s.d)).None?
  {
    var all := Play(h, run, s, 7);
    assert all == run + Schedule(s);
    PanicIff(h, run + Schedule(s), Make(s.on, s.id, s.d));
  }
}
