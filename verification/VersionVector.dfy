/**
 Version vectors (lib/src/version_vector.rs). A vector maps writer ids to versions; an absent writer
 has version 0. Writer ids are fixed-size byte arrays ordered as big-endian numbers.
 */
module VersionVector {
  import opened Options

  const LIMIT := 0x1_0000_0000_0000_0000

  type Key = nat
  type Version = v: int | 0 <= v < LIMIT
  type Vector = map<Key, Version>

  datatype Ordering = Less | Equal | Greater

  function Get(v: Vector, k: Key): Version { if k in v then v[k] else 0 }

  function Max(x: Version, y: Version): Version { if x < y then y else x }

  // ---------------------------------------------------------------- the order

  /** Happened-before or equal: no writer is ahead in `a`. */
  predicate Leq(a: Vector, b: Vector) {
    forall k :: k in a ==> a[k] <= Get(b, k)
  }

  predicate Same(a: Vector, b: Vector) { Leq(a, b) && Leq(b, a) }

  /** The documented meaning of `partial_cmp`. */
  function Compare(a: Vector, b: Vector): Option<Ordering> {
    if Leq(a, b) then (if Leq(b, a) then Some(Equal) else Some(Less))
    else if Leq(b, a) then Some(Greater)
    else None
  }

  lemma LeqPointwise(a: Vector, b: Vector)
    ensures Leq(a, b) <==> forall k :: Get(a, k) <= Get(b, k)
  {
    if forall k :: Get(a, k) <= Get(b, k) {
      forall k | k in a ensures a[k] <= Get(b, k) {
        assert Get(a, k) <= Get(b, k);
      }
    }
  }

  function Cmp(x: Version, y: Version): Ordering {
    if x < y then Less else if x == y then Equal else Greater
  }

  /** The pairs of versions that `partial_cmp` visits: first the writers of `a`, then those only in `b`. */
  function PairsOf(a: Vector, b: Vector, aKeys: seq<Key>, bKeys: seq<Key>): seq<(Version, Version)>
    requires forall k :: k in aKeys ==> k in a
    requires forall k :: k in bKeys ==> k in b
    decreases |aKeys| + |bKeys|
  {
    if aKeys != [] then [(a[aKeys[0]], Get(b, aKeys[0]))] + PairsOf(a, b, aKeys[1..], bKeys)
    else if bKeys != [] then
      (if bKeys[0] in a then [] else [(0, b[bKeys[0]])]) + PairsOf(a, b, aKeys, bKeys[1..])
    else []
  }

  /** `try_fold` with its short circuit. */
  function TryFold(ordering: Ordering, pairs: seq<(Version, Version)>): Option<Ordering>
    decreases pairs
  {
    if pairs == [] then Some(ordering)
    else
      match (ordering, Cmp(pairs[0].0, pairs[0].1))
      case (Equal, o) => TryFold(o, pairs[1..])
      case (o, Equal) => TryFold(o, pairs[1..])
      case (Less, Less) => TryFold(Less, pairs[1..])
      case (Greater, Greater) => TryFold(Greater, pairs[1..])
      case (Less, Greater) => None
      case (Greater, Less) => None
  }

  /** The fold finds out whether some pair goes up and whether some pair goes down. */
  lemma {:induction false} TryFoldMeaning(ordering: Ordering, pairs: seq<(Version, Version)>)
    ensures var up := ordering == Less || exists i :: 0 <= i < |pairs| && pairs[i].0 < pairs[i].1;
      var down := ordering == Greater || exists i :: 0 <= i < |pairs| && pairs[i].0 > pairs[i].1;
      TryFold(ordering, pairs) ==
        if up && down then None else if up then Some(Less) else if down then Some(Greater) else Some(Equal)
    decreases pairs
  {
    if pairs != [] {
      var rest := pairs[1..];
      assert pairs == [pairs[0]] + rest;
      TryFoldMeaning(ordering, rest);
      TryFoldMeaning(Cmp(pairs[0].0, pairs[0].1), rest);
      assert (exists i :: 0 <= i < |pairs| && pairs[i].0 < pairs[i].1)
        <==> pairs[0].0 < pairs[0].1 || exists i :: 0 <= i < |rest| && rest[i].0 < rest[i].1;
      assert (exists i :: 0 <= i < |pairs| && pairs[i].0 > pairs[i].1)
        <==> pairs[0].0 > pairs[0].1 || exists i :: 0 <= i < |rest| && rest[i].0 > rest[i].1;
    }
  }

  lemma {:induction false} PairsMeaning(a: Vector, b: Vector, aKeys: seq<Key>, bKeys: seq<Key>, p: (Version, Version))
    requires forall k :: k in aKeys ==> k in a
    requires forall k :: k in bKeys ==> k in b
    ensures p in PairsOf(a, b, aKeys, bKeys) <==>
      || (exists k :: k in aKeys && p == (a[k], Get(b, k)))
      || (exists k :: k in bKeys && k !in a && p == (0, b[k]))
    decreases |aKeys| + |bKeys|
  {
    if aKeys != [] {
      PairsMeaning(a, b, aKeys[1..], bKeys, p);
      assert aKeys == [aKeys[0]] + aKeys[1..];
    } else if bKeys != [] {
      PairsMeaning(a, b, aKeys, bKeys[1..], p);
      assert bKeys == [bKeys[0]] + bKeys[1..];
    }
  }

  /**
   The short-circuiting fold decides exactly the pointwise order, in whatever order the two maps are
   enumerated.
   */
  lemma PartialCmpCorrect(a: Vector, b: Vector, aKeys: seq<Key>, bKeys: seq<Key>)
    requires forall k :: k in aKeys <==> k in a
    requires forall k :: k in bKeys <==> k in b
    ensures TryFold(Equal, PairsOf(a, b, aKeys, bKeys)) == Compare(a, b)
  {
    var pairs := PairsOf(a, b, aKeys, bKeys);
    TryFoldMeaning(Equal, pairs);
    assert (exists i :: 0 <= i < |pairs| && pairs[i].0 > pairs[i].1) <==> !Leq(a, b) by {
      if i :| 0 <= i < |pairs| && pairs[i].0 > pairs[i].1 {
        PairsMeaning(a, b, aKeys, bKeys, pairs[i]);
      }
      if k :| k in a && a[k] > Get(b, k) {
        PairsMeaning(a, b, aKeys, bKeys, (a[k], Get(b, k)));
      }
    }
    assert (exists i :: 0 <= i < |pairs| && pairs[i].0 < pairs[i].1) <==> !Leq(b, a) by {
      if i :| 0 <= i < |pairs| && pairs[i].0 < pairs[i].1 {
        PairsMeaning(a, b, aKeys, bKeys, pairs[i]);
      }
      if k :| k in b && b[k] > Get(a, k) {
        PairsMeaning(a, b, aKeys, bKeys, if k in a then (a[k], Get(b, k)) else (0, b[k]));
      }
    }
  }

  lemma LeqTransitive(a: Vector, b: Vector, c: Vector)
    requires Leq(a, b) && Leq(b, c)
    ensures Leq(a, c)
  {
    LeqPointwise(b, c);
    forall k | k in a ensures a[k] <= Get(c, k) {
      assert Get(b, k) <= Get(c, k);
    }
  }

  // ---------------------------------------------------------------- merge, sum and difference

  function Merged(a: Vector, b: Vector): (m: Vector)
    ensures m.Keys == a.Keys + b.Keys
    ensures forall k :: Get(m, k) == Max(Get(a, k), Get(b, k))
  {
    map k | k in a.Keys + b.Keys :: Max(Get(a, k), Get(b, k))
  }

  /** `merge` is the least upper bound. */
  lemma MergedIsJoin(a: Vector, b: Vector, c: Vector)
    ensures Leq(a, Merged(a, b)) && Leq(b, Merged(a, b))
    ensures Leq(Merged(a, b), c) <==> Leq(a, c) && Leq(b, c)
  {
    LeqPointwise(a, Merged(a, b));
    LeqPointwise(b, Merged(a, b));
    LeqPointwise(Merged(a, b), c);
    LeqPointwise(a, c);
    LeqPointwise(b, c);
    if Leq(Merged(a, b), c) {
      forall k ensures Get(a, k) <= Get(c, k) && Get(b, k) <= Get(c, k) {
        assert Get(Merged(a, b), k) <= Get(c, k);
      }
    }
  }

  predicate NoOverflow(a: Vector, b: Vector) {
    forall k :: k in a && k in b ==> a[k] + b[k] < LIMIT
  }

  function Plus(a: Vector, b: Vector): (s: Vector)
    requires NoOverflow(a, b)
    ensures s.Keys == a.Keys + b.Keys
    ensures forall k :: Get(s, k) == Get(a, k) + Get(b, k)
  {
    map k | k in a.Keys + b.Keys :: Get(a, k) + Get(b, k)
  }

  /** Writers that are behind in `a` are dropped (`checked_sub`). */
  function SaturatingSub(a: Vector, b: Vector): Vector {
    map k | k in a && a[k] >= Get(b, k) :: a[k] - Get(b, k)
  }

  predicate IsEmpty(v: Vector) { forall k :: k in v ==> v[k] == 0 }

  /** Subtracting and adding back never overflows and gives the merge. */
  lemma SubThenPlusIsMerge(a: Vector, b: Vector)
    ensures NoOverflow(SaturatingSub(a, b), b)
    ensures Same(Plus(SaturatingSub(a, b), b), Merged(a, b))
  {
    var s := Plus(SaturatingSub(a, b), b);
    LeqPointwise(s, Merged(a, b));
    LeqPointwise(Merged(a, b), s);
  }

  lemma SubEmptyIff(a: Vector, b: Vector)
    ensures IsEmpty(SaturatingSub(a, b)) <==> Leq(a, b)
  {
    var d := SaturatingSub(a, b);
    if IsEmpty(d) {
      forall k | k in a ensures a[k] <= Get(b, k) {
        assert k in d ==> d[k] == 0;
      }
    }
  }

  // ---------------------------------------------------------------- histories

  datatype Op = Insert(id: Key, version: Version) | Increment(id: Key) | Merge(other: Vector) | Add(other: Vector)

  /** The value after one operation, or `None` when it overflows. */
  function Apply(v: Vector, op: Op): Option<Vector> {
    match op
    case Insert(id, version) => Some(v[id := Max(Get(v, id), version)])
    case Increment(id) => if Get(v, id) + 1 < LIMIT then Some(v[id := Get(v, id) + 1]) else None
    case Merge(other) => Some(Merged(v, other))
    case Add(other) => if NoOverflow(v, other) then Some(Plus(v, other)) else None
  }

  function Run(v: Vector, ops: seq<Op>): Option<Vector>
    decreases ops
  {
    if ops == [] then Some(v)
    else match Apply(v, ops[0])
      case Some(w) => Run(w, ops[1..])
      case None => None
  }

  /** One operation never goes back, and an increment always goes forward. */
  lemma ApplyGrows(v: Vector, op: Op)
    requires Apply(v, op).Some?
    ensures Leq(v, Apply(v, op).value)
    ensures op.Increment? ==> Compare(v, Apply(v, op).value) == Some(Less)
  {
    var w := Apply(v, op).value;
    match op
    case Increment(id) => assert w[id] > Get(v, id);
    case Merge(other) => MergedIsJoin(v, other, w);
    case Add(other) => LeqPointwise(v, w);
    case Insert(_, _) =>
  }

  /** What an operation does to each writer, and exactly when it overflows. */
  lemma ApplyMeaning(v: Vector, op: Op, k: Key)
    ensures Apply(v, op).None? <==>
      || (op.Increment? && Get(v, op.id) == LIMIT - 1)
      || (op.Add? && exists j :: Get(v, j) + Get(op.other, j) >= LIMIT)
    ensures Apply(v, op).Some? ==>
      var was, now := Get(v, k), Get(Apply(v, op).value, k);
      match op
      case Insert(id, version) =>
        was <= now && (now == was || (k == id && now == version)) && (k == id ==> version <= now)
      case Increment(id) => now - was == if k == id then 1 else 0
      case Merge(other) => was <= now && Get(other, k) <= now && (now == was || now == Get(other, k))
      case Add(other) => now - was == Get(other, k)
  {
    if op.Add? && exists j :: Get(v, j) + Get(op.other, j) >= LIMIT {
      var j :| Get(v, j) + Get(op.other, j) >= LIMIT;
      assert j in v && j in op.other;
    }
    if op.Add? && !NoOverflow(v, op.other) {
      var j :| j in v && j in op.other && v[j] + op.other[j] >= LIMIT;
      assert Get(v, j) + Get(op.other, j) >= LIMIT;
    }
  }

  lemma Compose(a: Vector, b: Vector, c: Vector)
    requires Leq(a, b) && Leq(b, c)
    ensures Leq(a, c)
    ensures Compare(a, b) == Some(Less) || Compare(b, c) == Some(Less) ==> Compare(a, c) == Some(Less)
  {
    LeqTransitive(a, b, c);
    if Leq(c, a) {
      LeqTransitive(c, a, b);
      LeqTransitive(b, c, a);
    }
  }

  /**
   Any history without overflow is a chain: whatever operations lead from one point to a later one,
   the version has not gone back, and it has gone strictly forward if one of them was an increment.
   */
  lemma {:induction false} HistoryIsChain(v: Vector, ops: seq<Op>)
    requires Run(v, ops).Some?
    ensures Leq(v, Run(v, ops).value)
    ensures (exists op :: op in ops && op.Increment?) ==> Compare(v, Run(v, ops).value) == Some(Less)
    decreases ops
  {
    if ops != [] {
      var w := Apply(v, ops[0]).value;
      ApplyGrows(v, ops[0]);
      HistoryIsChain(w, ops[1..]);
      Compose(v, w, Run(w, ops[1..]).value);
      assert ops == [ops[0]] + ops[1..];
    }
  }

  // ---------------------------------------------------------------- the mutable vector

  class VersionVector {
    var entries: Vector

    constructor ()
      ensures entries == map[]
    {
      entries := map[];
    }

    method Insert(id: Key, version: Version)
      modifies this
      ensures Apply(old(entries), Op.Insert(id, version)) == Some(entries)
    {
      var current := if id in entries then entries[id] else 0;
      entries := entries[id := Max(current, version)];
    }

    method Increment(id: Key)
      requires Get(entries, id) + 1 < LIMIT
      modifies this
      ensures Apply(old(entries), Op.Increment(id)) == Some(entries)
      ensures Compare(old(entries), entries) == Some(Less)
    {
      ghost var was := entries;
      var current := if id in entries then entries[id] else 0;
      entries := entries[id := current + 1];
      ApplyGrows(was, Op.Increment(id));
    }

    /** Entries of `other` are inserted one by one. */
    method Merge(other: Vector)
      modifies this
      ensures entries == Merged(old(entries), other)
    {
      ghost var was := entries;
      var rest := other.Keys;
      while rest != {}
        invariant rest <= other.Keys
        invariant entries.Keys == was.Keys + (other.Keys - rest)
        invariant forall k :: k in entries ==>
          entries[k] == if k in other && k !in rest then Max(Get(was, k), other[k]) else Get(was, k)
        decreases rest
      {
        var id :| id in rest;
        Insert(id, other[id]);
        rest := rest - {id};
      }
    }

    method AddAssign(other: Vector)
      requires NoOverflow(entries, other)
      modifies this
      ensures NoOverflow(old(entries), other) && entries == Plus(old(entries), other)
    {
      ghost var was := entries;
      var rest := other.Keys;
      while rest != {}
        invariant rest <= other.Keys
        invariant entries.Keys == was.Keys + (other.Keys - rest)
        invariant forall k :: k in entries ==>
          entries[k] == if k in other && k !in rest then Get(was, k) + other[k] else Get(was, k)
        decreases rest
      {
        var id :| id in rest;
        assert Get(entries, id) == Get(was, id);
        var current := if id in entries then entries[id] else 0;
        entries := entries[id := current + other[id]];
        rest := rest - {id};
      }
    }
  }
}
