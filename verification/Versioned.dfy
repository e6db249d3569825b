/** Selection of the entries with maximal versions (lib/src/versioned.rs). */
module Versioned {
  import opened Options
  import opened VersionVector

  /** A versioned entry that belongs to a branch; `payload` stands for the rest of it. */
  datatype Entry = Entry(version: Vector, branch: Key, payload: nat)

  /** The two tie-breakers: `()` and `PreferBranch`. */
  datatype Tiebreaker = NoTies | PreferBranch(preferred: Option<Key>)

  function CompareKeys(a: Key, b: Key): Ordering {
    if a < b then Less else if a == b then Equal else Greater
  }

  function BreakTie(tb: Tiebreaker, lhs: Entry, rhs: Entry): Ordering {
    match tb
    case NoTies => Equal
    case PreferBranch(None) => CompareKeys(lhs.branch, rhs.branch)
    case PreferBranch(Some(preferred)) =>
      match (lhs.branch == preferred, rhs.branch == preferred)
      case (true, false) => Greater
      case (false, true) => Less
      case _ => CompareKeys(lhs.branch, rhs.branch)
  }

  /** `partial_cmp`, then the tie-breaker on equal versions. */
  function CompareEntries(tb: Tiebreaker, a: Entry, b: Entry): Option<Ordering> {
    match Compare(a.version, b.version)
    case Some(Equal) => Some(BreakTie(tb, a, b))
    case o => o
  }

  predicate Below(tb: Tiebreaker, a: Entry, b: Entry) {
    CompareEntries(tb, a, b) == Some(Less)
  }

  /** A strict partial order, with `Greater` its converse. */
  lemma BelowIsStrictOrder(tb: Tiebreaker, a: Entry, b: Entry, c: Entry)
    ensures !Below(tb, a, a)
    ensures CompareEntries(tb, a, b) == Some(Greater) <==> Below(tb, b, a)
    ensures Below(tb, a, b) && Below(tb, b, c) ==> Below(tb, a, c)
    ensures Below(tb, a, b) ==> Leq(a.version, b.version)
  {
    if Below(tb, a, b) && Below(tb, b, c) {
      Compose(a.version, b.version, c.version);
      if Leq(c.version, a.version) {
        LeqTransitive(b.version, c.version, a.version);
        LeqTransitive(c.version, a.version, b.version);
      }
    }
  }

  // ---------------------------------------------------------------- specification

  predicate Dominated(tb: Tiebreaker, e: Entry, all: seq<Entry>) {
    exists i :: 0 <= i < |all| && Below(tb, e, all[i])
  }

  /** The entries of `xs` that nothing in `all` dominates, in their order. */
  function Undominated(tb: Tiebreaker, xs: seq<Entry>, all: seq<Entry>): seq<Entry> {
    if xs == [] then []
    else
      var n := |xs| - 1;
      Undominated(tb, xs[..n], all) + if Dominated(tb, xs[n], all) then [] else [xs[n]]
  }

  function KeepMaximal(tb: Tiebreaker, xs: seq<Entry>): seq<Entry> {
    Undominated(tb, xs, xs)
  }

  lemma {:induction false} UndominatedMember(tb: Tiebreaker, xs: seq<Entry>, all: seq<Entry>, e: Entry)
    ensures multiset(Undominated(tb, xs, all))[e] == if Dominated(tb, e, all) then 0 else multiset(xs)[e]
    decreases |xs|
  {
    if xs != [] {
      var n := |xs| - 1;
      UndominatedMember(tb, xs[..n], all, e);
      assert xs == xs[..n] + [xs[n]];
    }
  }

  lemma UndominatedIn(tb: Tiebreaker, xs: seq<Entry>, all: seq<Entry>, e: Entry)
    ensures e in Undominated(tb, xs, all) <==> e in xs && !Dominated(tb, e, all)
  {
    UndominatedMember(tb, xs, all, e);
    assert e in Undominated(tb, xs, all) <==> e in multiset(Undominated(tb, xs, all));
    assert e in xs <==> e in multiset(xs);
  }

  lemma {:induction false} UndominatedCongruent(tb: Tiebreaker, xs: seq<Entry>, all: seq<Entry>, all': seq<Entry>)
    requires forall e :: e in xs ==> (Dominated(tb, e, all) <==> Dominated(tb, e, all'))
    ensures Undominated(tb, xs, all) == Undominated(tb, xs, all')
    decreases |xs|
  {
    if xs != [] {
      var n := |xs| - 1;
      assert xs == xs[..n] + [xs[n]];
      UndominatedCongruent(tb, xs[..n], all, all');
      assert xs[n] in xs;
    }
  }

  lemma {:induction false} UndominatedConcat(tb: Tiebreaker, xs: seq<Entry>, ys: seq<Entry>, all: seq<Entry>)
    ensures Undominated(tb, xs + ys, all) == Undominated(tb, xs, all) + Undominated(tb, ys, all)
    decreases |ys|
  {
    if ys == [] {
      assert xs + ys == xs;
    } else {
      var n := |ys| - 1;
      UndominatedConcat(tb, xs, ys[..n], all);
      assert (xs + ys)[..|xs + ys| - 1] == xs + ys[..n];
    }
  }

  /** Filtering by a weaker test first changes nothing. */
  lemma {:induction false} UndominatedTwice(tb: Tiebreaker, xs: seq<Entry>, few: seq<Entry>, all: seq<Entry>)
    requires forall e :: e in xs && Dominated(tb, e, few) ==> Dominated(tb, e, all)
    ensures Undominated(tb, Undominated(tb, xs, few), all) == Undominated(tb, xs, all)
    decreases |xs|
  {
    if xs != [] {
      var n := |xs| - 1;
      assert xs == xs[..n] + [xs[n]];
      UndominatedTwice(tb, xs[..n], few, all);
      var u := Undominated(tb, xs[..n], few);
      if Dominated(tb, xs[n], few) {
        assert Undominated(tb, xs, few) == u;
        assert xs[n] in xs && Dominated(tb, xs[n], all);
      } else {
        assert (u + [xs[n]])[..|u|] == u;
      }
    }
  }

  /** The positions of the entries above `e`. */
  ghost function Above(tb: Tiebreaker, e: Entry, xs: seq<Entry>): set<nat> {
    set i: nat | i < |xs| && Below(tb, e, xs[i])
  }

  /** Whatever is dominated at all is dominated by a maximal entry. */
  lemma {:induction false} DominatedByMaximal(tb: Tiebreaker, e: Entry, xs: seq<Entry>)
    ensures Dominated(tb, e, xs) <==> Dominated(tb, e, KeepMaximal(tb, xs))
    decreases Above(tb, e, xs)
  {
    var kept := KeepMaximal(tb, xs);
    if i :| 0 <= i < |kept| && Below(tb, e, kept[i]) {
      UndominatedIn(tb, xs, xs, kept[i]);
      assert kept[i] in xs;
    }
    if i :| 0 <= i < |xs| && Below(tb, e, xs[i]) {
      UndominatedIn(tb, xs, xs, xs[i]);
      if xs[i] !in kept {
        forall j | j in Above(tb, xs[i], xs) ensures j in Above(tb, e, xs) {
          BelowIsStrictOrder(tb, e, xs[i], xs[j]);
        }
        BelowIsStrictOrder(tb, xs[i], xs[i], xs[i]);
        assert i in Above(tb, e, xs) && i !in Above(tb, xs[i], xs);
        DominatedByMaximal(tb, xs[i], xs);
        var j :| 0 <= j < |kept| && Below(tb, xs[i], kept[j]);
        BelowIsStrictOrder(tb, e, xs[i], kept[j]);
      }
    }
  }

  // ---------------------------------------------------------------- what is kept

  /** The version of `e` happened before that of `f`. */
  predicate Outdates(f: Entry, e: Entry) { Leq(e.version, f.version) && !Leq(f.version, e.version) }

  predicate Preferred(tb: Tiebreaker, e: Entry) { tb.PreferBranch? && tb.preferred == Some(e.branch) }

  /** What an entry has to do with another one of the same version to be kept beside it. */
  predicate Yields(tb: Tiebreaker, e: Entry, f: Entry) {
    tb.PreferBranch? && if Preferred(tb, e) || Preferred(tb, f) then !Preferred(tb, e) else e.branch < f.branch
  }

  lemma BelowMeaning(tb: Tiebreaker, e: Entry, f: Entry)
    ensures Below(tb, e, f) <==> Outdates(f, e) || (Same(e.version, f.version) && Yields(tb, e, f))
  {
  }

  /** The inputs of the version of `e`. */
  predicate Rival(xs: seq<Entry>, e: Entry, f: Entry) { f in xs && Same(e.version, f.version) }

  /**
   Exactly what is kept: the inputs whose version no other input outdates and, with a tie-breaker,
   among inputs of one version those of the preferred branch if there are any, and otherwise those of
   the greatest branch id.
   */
  lemma KeptIff(tb: Tiebreaker, xs: seq<Entry>, e: Entry)
    ensures e in KeepMaximal(tb, xs) <==>
      && e in xs && (forall f :: f in xs ==> !Outdates(f, e))
      && (tb.PreferBranch? ==>
            if exists f :: Rival(xs, e, f) && tb.preferred == Some(f.branch) then tb.preferred == Some(e.branch)
            else forall f :: Rival(xs, e, f) ==> f.branch <= e.branch)
  {
    UndominatedIn(tb, xs, xs, e);
    if e in xs {
      assert Rival(xs, e, e);
      if i :| 0 <= i < |xs| && Below(tb, e, xs[i]) {
        BelowMeaning(tb, e, xs[i]);
        assert Rival(xs, e, xs[i]) || Outdates(xs[i], e);
      }
      forall f | f in xs ensures Below(tb, e, f) ==> Dominated(tb, e, xs) {}
      forall f ensures Below(tb, e, f) <==> Outdates(f, e) || (Same(e.version, f.version) && Yields(tb, e, f)) {
        BelowMeaning(tb, e, f);
      }
    }
  }

  /** `at` lists the positions in `xs` from which `kept` was taken, in their order. */
  predicate TakenAt(xs: seq<Entry>, kept: seq<Entry>, at: seq<nat>) {
    && |at| == |kept| && (forall i :: 0 <= i < |at| ==> at[i] < |xs| && xs[at[i]] == kept[i])
    && (forall i, j :: 0 <= i < j < |at| ==> at[i] < at[j])
  }

  lemma TakenLast(xs: seq<Entry>, kept: seq<Entry>, at: seq<nat>, x: Entry)
    requires TakenAt(xs, kept, at)
    ensures TakenAt(xs + [x], kept, at) && TakenAt(xs + [x], kept + [x], at + [|xs|])
  {
  }

  /** The kept entries come in the order of the input, each as often as it occurs there. */
  lemma {:induction false} KeptInOrder(tb: Tiebreaker, xs: seq<Entry>, all: seq<Entry>) returns (at: seq<nat>)
    ensures TakenAt(xs, Undominated(tb, xs, all), at)
    ensures forall k :: 0 <= k < |xs| && !Dominated(tb, xs[k], all) ==> k in at
    decreases |xs|
  {
    at := [];
    if xs != [] {
      var n := |xs| - 1;
      var most := KeptInOrder(tb, xs[..n], all);
      TakenLast(xs[..n], Undominated(tb, xs[..n], all), most, xs[n]);
      assert xs == xs[..n] + [xs[n]];
      at := if Dominated(tb, xs[n], all) then most else most + [n];
      forall k | 0 <= k < |xs| && !Dominated(tb, xs[k], all) ensures k in at {
        assert k < n ==> xs[..n][k] == xs[k];
      }
    }
  }

  // ---------------------------------------------------------------- convergence

  lemma DominatedConcat(tb: Tiebreaker, e: Entry, xs: seq<Entry>, ys: seq<Entry>)
    ensures Dominated(tb, e, xs + ys) <==> Dominated(tb, e, xs) || Dominated(tb, e, ys)
  {
    if i :| 0 <= i < |xs| && Below(tb, e, xs[i]) { assert (xs + ys)[i] == xs[i]; }
    if i :| 0 <= i < |ys| && Below(tb, e, ys[i]) { assert (xs + ys)[|xs| + i] == ys[i]; }
  }

  /** Selecting early loses nothing: the result is the same sequence. */
  lemma KeepMaximalIncremental(tb: Tiebreaker, a: seq<Entry>, b: seq<Entry>)
    ensures KeepMaximal(tb, KeepMaximal(tb, a) + b) == KeepMaximal(tb, a + b)
  {
    var kept := KeepMaximal(tb, a);
    forall e ensures Dominated(tb, e, kept + b) <==> Dominated(tb, e, a + b) {
      DominatedConcat(tb, e, kept, b);
      DominatedConcat(tb, e, a, b);
      DominatedByMaximal(tb, e, a);
    }
    UndominatedCongruent(tb, kept + b, kept + b, a + b);
    UndominatedConcat(tb, kept, b, a + b);
    UndominatedConcat(tb, a, b, a + b);
    forall e | e in a && Dominated(tb, e, a) ensures Dominated(tb, e, a + b) {
      DominatedConcat(tb, e, a, b);
    }
    UndominatedTwice(tb, a, a, a + b);
  }

  /** Which entries are kept does not depend on the order they come in. */
  lemma KeepMaximalOrderFree(tb: Tiebreaker, a: seq<Entry>, b: seq<Entry>)
    requires multiset(a) == multiset(b)
    ensures multiset(KeepMaximal(tb, a)) == multiset(KeepMaximal(tb, b))
  {
    forall e ensures multiset(KeepMaximal(tb, a))[e] == multiset(KeepMaximal(tb, b))[e] {
      UndominatedMember(tb, a, a, e);
      UndominatedMember(tb, b, b, e);
      assert Dominated(tb, e, a) <==> Dominated(tb, e, b) by {
        if i :| 0 <= i < |a| && Below(tb, e, a[i]) { assert a[i] in multiset(b); assert a[i] in b; }
        if i :| 0 <= i < |b| && Below(tb, e, b[i]) { assert b[i] in multiset(a); assert b[i] in a; }
      }
    }
  }

  function MergeAll(xs: seq<Entry>): Vector {
    if xs == [] then map[] else Merged(MergeAll(xs[..|xs| - 1]), xs[|xs| - 1].version)
  }

  /** The merge of all versions is their least upper bound. */
  lemma {:induction false} MergeAllIsJoin(xs: seq<Entry>, c: Vector)
    ensures Leq(MergeAll(xs), c) <==> forall e :: e in xs ==> Leq(e.version, c)
    decreases |xs|
  {
    if xs != [] {
      var n := |xs| - 1;
      MergeAllIsJoin(xs[..n], c);
      assert Leq(MergeAll(xs), c) <==> Leq(MergeAll(xs[..n]), c) && Leq(xs[n].version, c) by {
        MergedIsJoin(MergeAll(xs[..n]), xs[n].version, c);
      }
      assert xs == xs[..n] + [xs[n]];
    }
  }

  /** Dropping outdated entries drops no history: the kept versions merge to the same vector. */
  lemma KeptVersionsMergeToAll(tb: Tiebreaker, xs: seq<Entry>)
    ensures Same(MergeAll(KeepMaximal(tb, xs)), MergeAll(xs))
  {
    var kept := KeepMaximal(tb, xs);
    var some, all := MergeAll(kept), MergeAll(xs);
    MergeAllIsJoin(xs, all);
    MergeAllIsJoin(kept, some);
    MergeAllIsJoin(kept, all);
    forall e | e in kept ensures Leq(e.version, all) { UndominatedIn(tb, xs, xs, e); }
    MergeAllIsJoin(xs, some);
    forall e | e in xs ensures Leq(e.version, some) {
      UndominatedIn(tb, xs, xs, e);
      if e !in kept {
        DominatedByMaximal(tb, e, xs);
        var i :| 0 <= i < |kept| && Below(tb, e, kept[i]);
        BelowIsStrictOrder(tb, e, kept[i], e);
        LeqTransitive(e.version, kept[i].version, some);
      }
    }
  }

  // ---------------------------------------------------------------- the algorithm

  /** The entries of `xs` that are not below `e`. */
  function NotBelow(tb: Tiebreaker, xs: seq<Entry>, e: Entry): seq<Entry> {
    if xs == [] then []
    else
      var n := |xs| - 1;
      NotBelow(tb, xs[..n], e) + if Below(tb, xs[n], e) then [] else [xs[n]]
  }

  /** One more entry: either something kept is above it, or it pushes out what is below it. */
  lemma KeepMaximalSnoc(tb: Tiebreaker, xs: seq<Entry>, e: Entry)
    ensures var kept := KeepMaximal(tb, xs);
      KeepMaximal(tb, xs + [e]) ==
        if Dominated(tb, e, kept) then kept else NotBelow(tb, kept, e) + [e]
  {
    var kept := KeepMaximal(tb, xs);
    var all := xs + [e];
    BelowIsStrictOrder(tb, e, e, e);
    DominatedByMaximal(tb, e, xs);
    DominatedConcat(tb, e, xs, [e]);
    forall x ensures Dominated(tb, x, all) <==> Dominated(tb, x, xs) || Below(tb, x, e) {
      DominatedConcat(tb, x, xs, [e]);
      assert Dominated(tb, x, [e]) <==> Below(tb, x, e) by { assert [e][0] == e; }
    }
    assert all[..|xs|] == xs;
    UndominatedTwice(tb, xs, xs, all);
    if Dominated(tb, e, kept) {
      forall x | x in kept ensures !Dominated(tb, x, all) {
        UndominatedIn(tb, xs, xs, x);
        var i :| 0 <= i < |xs| && Below(tb, e, xs[i]);
        BelowIsStrictOrder(tb, x, e, xs[i]);
      }
      UndominatedIsAll(tb, kept, all);
    } else {
      forall x | x in kept ensures !Dominated(tb, x, xs) { UndominatedIn(tb, xs, xs, x); }
      UndominatedIsNotBelow(tb, kept, all, e);
    }
  }

  lemma {:induction false} UndominatedIsAll(tb: Tiebreaker, xs: seq<Entry>, all: seq<Entry>)
    requires forall x :: x in xs ==> !Dominated(tb, x, all)
    ensures Undominated(tb, xs, all) == xs
    decreases |xs|
  {
    if xs != [] {
      assert xs == xs[..|xs| - 1] + [xs[|xs| - 1]];
      UndominatedIsAll(tb, xs[..|xs| - 1], all);
    }
  }

  lemma {:induction false} UndominatedIsNotBelow(tb: Tiebreaker, xs: seq<Entry>, all: seq<Entry>, e: Entry)
    requires forall x :: x in xs ==> (Dominated(tb, x, all) <==> Below(tb, x, e))
    ensures Undominated(tb, xs, all) == NotBelow(tb, xs, e)
    decreases |xs|
  {
    if xs != [] {
      assert xs == xs[..|xs| - 1] + [xs[|xs| - 1]];
      UndominatedIsNotBelow(tb, xs[..|xs| - 1], all, e);
    }
  }

  lemma KeptAreIncomparable(tb: Tiebreaker, xs: seq<Entry>, a: Entry, b: Entry)
    requires a in KeepMaximal(tb, xs) && b in KeepMaximal(tb, xs)
    ensures !Below(tb, a, b)
  {
    UndominatedIn(tb, xs, xs, a);
    UndominatedIn(tb, xs, xs, b);
  }

  /** `max` is exactly the undominated entries in their order, and nothing disappears. */
  method Partition(tb: Tiebreaker, entries: seq<Entry>) returns (max: seq<Entry>, min: seq<Entry>)
    ensures max == KeepMaximal(tb, entries)
    ensures multiset(max) + multiset(min) == multiset(entries)
    ensures forall e :: e in min ==> Dominated(tb, e, max)
  {
    max, min := [], [];
    for i := 0 to |entries|
      invariant max == KeepMaximal(tb, entries[..i])
      invariant multiset(max) + multiset(min) == multiset(entries[..i])
      invariant forall e :: e in min ==> Dominated(tb, e, max)
    {
      assert entries[..i + 1] == entries[..i] + [entries[i]];
      KeepMaximalSnoc(tb, entries[..i], entries[i]);
      max, min := Place(tb, max, min, entries[i], entries[..i]);
    }
    assert entries[..|entries|] == entries;
  }

  /** The body of the outer loop: find the place of one new entry among the kept ones. */
  method Place(tb: Tiebreaker, kept: seq<Entry>, outdated: seq<Entry>, entry: Entry, ghost seen: seq<Entry>)
    returns (max: seq<Entry>, min: seq<Entry>)
    requires kept == KeepMaximal(tb, seen)
    requires forall e :: e in outdated ==> Dominated(tb, e, kept)
    ensures max == if Dominated(tb, entry, kept) then kept else NotBelow(tb, kept, entry) + [entry]
    ensures multiset(max) + multiset(min) == multiset(kept) + multiset(outdated) + multiset{entry}
    ensures forall e :: e in min ==> Dominated(tb, e, max)
  {
    var removed, push;
    max, removed, push := Sift(tb, kept, entry, seen);
    min := outdated + removed;
    if push {
      max := max + [entry];
      PushedDominates(tb, kept, entry, outdated, removed);
    } else {
      min := min + [entry];
    }
  }

  lemma PushedDominates(tb: Tiebreaker, kept: seq<Entry>, entry: Entry, outdated: seq<Entry>, removed: seq<Entry>)
    requires forall e :: e in outdated ==> Dominated(tb, e, kept)
    requires forall e :: e in removed ==> Below(tb, e, entry)
    ensures forall e :: e in outdated + removed ==> Dominated(tb, e, NotBelow(tb, kept, entry) + [entry])
  {
    var max := NotBelow(tb, kept, entry) + [entry];
    assert max[|max| - 1] == entry;
    forall e | e in outdated + removed ensures Dominated(tb, e, max) {
      if e in outdated {
        var i :| 0 <= i < |kept| && Below(tb, e, kept[i]);
        StillDominated(tb, kept, entry, e, i);
      }
    }
  }

  /** What an entry was outdated by is still there, or was pushed out by something above it. */
  lemma StillDominated(tb: Tiebreaker, kept: seq<Entry>, entry: Entry, e: Entry, i: nat)
    requires i < |kept| && Below(tb, e, kept[i])
    ensures Dominated(tb, e, NotBelow(tb, kept, entry) + [entry])
  {
    var max := NotBelow(tb, kept, entry) + [entry];
    if Below(tb, kept[i], entry) {
      BelowIsStrictOrder(tb, e, kept[i], entry);
      assert max[|max| - 1] == entry;
    } else {
      NotBelowIn(tb, kept, entry, kept[i]);
      assert kept[i] in max;
    }
  }

  lemma {:induction false} NotBelowIn(tb: Tiebreaker, xs: seq<Entry>, e: Entry, x: Entry)
    ensures x in NotBelow(tb, xs, e) <==> x in xs && !Below(tb, x, e)
    decreases |xs|
  {
    if xs != [] {
      assert xs == xs[..|xs| - 1] + [xs[|xs| - 1]];
      NotBelowIn(tb, xs[..|xs| - 1], e, x);
    }
  }

  lemma {:induction false} NotBelowIsAll(tb: Tiebreaker, xs: seq<Entry>, e: Entry)
    requires forall x :: x in xs ==> !Below(tb, x, e)
    ensures NotBelow(tb, xs, e) == xs
    decreases |xs|
  {
    if xs != [] {
      assert xs == xs[..|xs| - 1] + [xs[|xs| - 1]];
      NotBelowIsAll(tb, xs[..|xs| - 1], e);
    }
  }

  /** The inner loop removes nothing on the way to an entry that is above the new one. */
  lemma NothingRemoved(tb: Tiebreaker, seen: seq<Entry>, entry: Entry, k: nat)
    requires k < |KeepMaximal(tb, seen)| && Below(tb, entry, KeepMaximal(tb, seen)[k])
    ensures forall x :: x in KeepMaximal(tb, seen) ==> !Below(tb, x, entry)
    ensures NotBelow(tb, KeepMaximal(tb, seen)[..k], entry) == KeepMaximal(tb, seen)[..k]
  {
    var kept := KeepMaximal(tb, seen);
    forall x | x in kept ensures !Below(tb, x, entry) {
      BelowIsStrictOrder(tb, x, entry, kept[k]);
      KeptAreIncomparable(tb, seen, x, kept[k]);
    }
    NotBelowIsAll(tb, kept[..k], entry);
  }

  /** The inner loop has looked at `k` of the kept entries and stands at `index`. */
  ghost predicate Sifted(tb: Tiebreaker, kept: seq<Entry>, entry: Entry, k: nat, max: seq<Entry>,
                         removed: seq<Entry>, index: nat) {
    && k <= |kept| && index == |NotBelow(tb, kept[..k], entry)|
    && max == NotBelow(tb, kept[..k], entry) + kept[k..]
    && multiset(max) + multiset(removed) == multiset(kept)
    && (forall j :: 0 <= j < k ==> !Below(tb, entry, kept[j]))
    && (forall e :: e in removed ==> e in kept && Below(tb, e, entry))
  }

  lemma SiftKeep(tb: Tiebreaker, kept: seq<Entry>, entry: Entry, k: nat, max: seq<Entry>, removed: seq<Entry>,
                 index: nat)
    requires Sifted(tb, kept, entry, k, max, removed, index) && k < |kept|
    requires !Below(tb, kept[k], entry) && !Below(tb, entry, kept[k])
    ensures Sifted(tb, kept, entry, k + 1, max, removed, index + 1)
  {
    assert kept[..k + 1][..k] == kept[..k];
  }

  lemma SiftRemove(tb: Tiebreaker, kept: seq<Entry>, entry: Entry, k: nat, max: seq<Entry>, removed: seq<Entry>,
                   index: nat)
    requires Sifted(tb, kept, entry, k, max, removed, index) && k < |kept|
    requires Below(tb, kept[k], entry) && !Below(tb, entry, kept[k])
    ensures Sifted(tb, kept, entry, k + 1, max[..index] + max[index + 1..], removed + [max[index]], index)
  {
    assert kept[..k + 1][..k] == kept[..k];
    var front := NotBelow(tb, kept[..k], entry);
    assert NotBelow(tb, kept[..k + 1], entry) == front;
    RemoveAt(front, kept[k..], removed);
  }

  /** Moving the first entry of `back` to the removed ones. */
  lemma RemoveAt(front: seq<Entry>, back: seq<Entry>, removed: seq<Entry>)
    requires back != []
    ensures var max, i := front + back, |front|;
      && max[i] == back[0] && max[..i] + max[i + 1..] == front + back[1..]
      && multiset(front + back[1..]) + multiset(removed + [back[0]]) == multiset(max) + multiset(removed)
  {
    assert back == [back[0]] + back[1..];
  }

  lemma SiftEnd(tb: Tiebreaker, kept: seq<Entry>, entry: Entry, k: nat, max: seq<Entry>, removed: seq<Entry>,
                index: nat)
    requires Sifted(tb, kept, entry, k, max, removed, index) && index >= |max|
    ensures !Dominated(tb, entry, kept) && max == NotBelow(tb, kept, entry)
    ensures multiset(max) + multiset(removed) == multiset(kept)
    ensures forall e :: e in removed ==> Below(tb, e, entry)
  {
    assert kept[..k] == kept;
  }

  lemma NonEmptyHas(s: seq<Entry>)
    requires s != []
    ensures s[0] in s
  {
  }

  lemma NoneLeftOut(tb: Tiebreaker, kept: seq<Entry>, entry: Entry, removed: seq<Entry>)
    requires forall e :: e in removed ==> e in kept && Below(tb, e, entry)
    requires forall x :: x in kept ==> !Below(tb, x, entry)
    ensures removed == []
  {
    if removed != [] { NonEmptyHas(removed); }
  }

  lemma SiftStop(tb: Tiebreaker, kept: seq<Entry>, entry: Entry, k: nat, max: seq<Entry>, removed: seq<Entry>,
                 index: nat, seen: seq<Entry>)
    requires Sifted(tb, kept, entry, k, max, removed, index) && k < |kept|
    requires kept == KeepMaximal(tb, seen) && Below(tb, entry, kept[k])
    ensures Dominated(tb, entry, kept) && max == kept && removed == []
  {
    assert removed == [] && NotBelow(tb, kept[..k], entry) == kept[..k] by {
      NothingRemoved(tb, seen, entry, k);
      NoneLeftOut(tb, kept, entry, removed);
    }
    assert kept == kept[..k] + kept[k..];
  }

  /** Where the inner loop stands. */
  lemma SiftAt(tb: Tiebreaker, kept: seq<Entry>, entry: Entry, k: nat, max: seq<Entry>, removed: seq<Entry>, index: nat)
    requires Sifted(tb, kept, entry, k, max, removed, index) && index < |max|
    ensures k < |kept| && max[index] == kept[k]
  {
  }

  /** The three ways the comparison can go. */
  function Verdict(tb: Tiebreaker, a: Entry, b: Entry): (o: Ordering)
    ensures o == Less <==> Below(tb, a, b)
    ensures o == Greater <==> Below(tb, b, a)
  {
    BelowIsStrictOrder(tb, a, b, a);
    BelowIsStrictOrder(tb, b, a, b);
    match CompareEntries(tb, a, b)
    case Some(o) => o
    case None => Equal
  }

  /** The body of the inner loop: compare with the entry at `index`, then remove it, stop or go on. */
  method SiftOne(tb: Tiebreaker, ghost kept: seq<Entry>, entry: Entry, ghost k: nat, max: seq<Entry>,
                 removed: seq<Entry>, index: nat, ghost seen: seq<Entry>)
    returns (max': seq<Entry>, removed': seq<Entry>, index': nat, stop: bool)
    requires Sifted(tb, kept, entry, k, max, removed, index) && index < |max| && kept == KeepMaximal(tb, seen)
    ensures if stop then Dominated(tb, entry, kept) && max' == kept && removed' == []
            else k < |kept| && Sifted(tb, kept, entry, k + 1, max', removed', index')
  {
    max', removed', index', stop := max, removed, index, false;
    SiftAt(tb, kept, entry, k, max, removed, index);
    match Verdict(tb, max[index], entry) {
      case Less =>
        BelowIsStrictOrder(tb, max[index], entry, max[index]);
        SiftRemove(tb, kept, entry, k, max, removed, index);
        max', removed' := max[..index] + max[index + 1..], removed + [max[index]];
      case Greater =>
        SiftStop(tb, kept, entry, k, max, removed, index, seen);
        stop := true;
      case Equal =>
        SiftKeep(tb, kept, entry, k, max, removed, index);
        index' := index + 1;
    }
  }

  lemma SiftStart(tb: Tiebreaker, kept: seq<Entry>, entry: Entry)
    ensures Sifted(tb, kept, entry, 0, kept, [], 0)
  {
    assert kept[..0] == [] && kept[0..] == kept;
  }

  /** The inner loop. */
  method Sift(tb: Tiebreaker, kept: seq<Entry>, entry: Entry, ghost seen: seq<Entry>)
    returns (max: seq<Entry>, removed: seq<Entry>, push: bool)
    requires kept == KeepMaximal(tb, seen)
    ensures push == !Dominated(tb, entry, kept)
    ensures if push then max == NotBelow(tb, kept, entry) else max == kept && removed == []
    ensures multiset(max) + multiset(removed) == multiset(kept)
    ensures forall e :: e in removed ==> Below(tb, e, entry)
  {
    max, removed, push := kept, [], true;
    var index: nat := 0;
    ghost var k: nat := 0;
    SiftStart(tb, kept, entry);
    while index < |max|
      invariant Sifted(tb, kept, entry, k, max, removed, index)
      decreases |kept| - k
    {
      var stop;
      max, removed, index, stop := SiftOne(tb, kept, entry, k, max, removed, index, seen);
      if stop { return max, removed, false; }
      k := k + 1;
    }
    SiftEnd(tb, kept, entry, k, max, removed, index);
  }
}
