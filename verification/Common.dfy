/** Small shared vocabulary: optional values, results, and the stable sort of JavaScript arrays. */
module Common {

  datatype Option<+T> = None | Some(value: T) {
    function GetOr(default: T): T {
      match this
      case Some(v) => v
      case None => default
    }
  }

  datatype Result<+T, +E> = Ok(value: T) | Err(error: E)

  /** The elements of `xs` that satisfy `p`, in order (`Array.prototype.filter`). */
  function Filter<T>(xs: seq<T>, p: T -> bool): seq<T> {
    if xs == [] then []
    else (if p(xs[0]) then [xs[0]] else []) + Filter(xs[1..], p)
  }

  lemma {:induction false} FilterMembers<T>(xs: seq<T>, p: T -> bool)
    ensures forall x :: x in Filter(xs, p) <==> x in xs && p(x)
  {
    if xs != [] {
      FilterMembers(xs[1..], p);
      assert forall x :: x in xs <==> x == xs[0] || x in xs[1..];
    }
  }

  /** An element that satisfies `p` is kept as often as it stands there, and no other is. */
  lemma {:induction false} FilterKeeps<T>(xs: seq<T>, p: T -> bool, x: T)
    ensures multiset(Filter(xs, p))[x] == if p(x) then multiset(xs)[x] else 0
  {
    if xs != [] {
      FilterKeeps(xs[1..], p, x);
      assert xs == [xs[0]] + xs[1..];
    }
  }
}

/**
 * `Array.prototype.sort` is stable: elements that compare equal keep their order.
 * `Sort` is the reference for it, for any comparison that is a total preorder.
 */
module StableSort {
  import opened Common

  ghost predicate TotalPreorder<T(!new)>(leq: (T, T) -> bool) {
    && (forall x, y :: leq(x, y) || leq(y, x))
    && (forall x, y, z :: leq(x, y) && leq(y, z) ==> leq(x, z))
  }

  ghost predicate Sorted<T>(xs: seq<T>, leq: (T, T) -> bool) {
    forall i, j :: 0 <= i < j < |xs| ==> leq(xs[i], xs[j])
  }

  function Insert<T>(x: T, ys: seq<T>, leq: (T, T) -> bool): seq<T> {
    if ys == [] || leq(x, ys[0]) then [x] + ys
    else [ys[0]] + Insert(x, ys[1..], leq)
  }

  function Sort<T>(xs: seq<T>, leq: (T, T) -> bool): seq<T> {
    if xs == [] then [] else Insert(xs[0], Sort(xs[1..], leq), leq)
  }

  lemma {:induction false} InsertPermutes<T>(x: T, ys: seq<T>, leq: (T, T) -> bool)
    ensures multiset(Insert(x, ys, leq)) == multiset(ys) + multiset{x}
  {
    if ys != [] && !leq(x, ys[0]) {
      InsertPermutes(x, ys[1..], leq);
      assert ys == [ys[0]] + ys[1..];
    }
  }

  lemma {:induction false} InsertSorted<T(!new)>(x: T, ys: seq<T>, leq: (T, T) -> bool)
    requires TotalPreorder(leq) && Sorted(ys, leq)
    ensures Sorted(Insert(x, ys, leq), leq)
  {
    if ys != [] && !leq(x, ys[0]) {
      var rest := Insert(x, ys[1..], leq);
      InsertSorted(x, ys[1..], leq);
      InsertPermutes(x, ys[1..], leq);
      forall j | 0 <= j < |rest| ensures leq(ys[0], rest[j]) {
        assert rest[j] in multiset(rest);
        assert rest[j] == x || rest[j] in ys[1..];
      }
    }
  }

  /** Sorting yields a sorted permutation. */
  lemma {:induction false} SortSorts<T(!new)>(xs: seq<T>, leq: (T, T) -> bool)
    requires TotalPreorder(leq)
    ensures Sorted(Sort(xs, leq), leq)
    ensures multiset(Sort(xs, leq)) == multiset(xs)
  {
    if xs != [] {
      SortSorts(xs[1..], leq);
      InsertSorted(xs[0], Sort(xs[1..], leq), leq);
      InsertPermutes(xs[0], Sort(xs[1..], leq), leq);
      assert xs == [xs[0]] + xs[1..];
    }
  }

  /** Stability on a list already in order: nothing moves. */
  lemma {:induction false} SortOfSorted<T>(xs: seq<T>, leq: (T, T) -> bool)
    requires Sorted(xs, leq)
    ensures Sort(xs, leq) == xs
  {
    if xs != [] {
      SortOfSorted(xs[1..], leq);
    }
  }

  /** No two elements of the kind are told apart. */
  ghost predicate AllTie<T(!new)>(leq: (T, T) -> bool, p: T -> bool) {
    forall x, y :: p(x) && p(y) ==> leq(x, y)
  }

  /** Elements that tie are met in the same order before and after. */
  lemma {:induction false} SortIsStable<T(!new)>(xs: seq<T>, leq: (T, T) -> bool, p: T -> bool)
    requires AllTie(leq, p)
    ensures Filter(Sort(xs, leq), p) == Filter(xs, p)
  {
    if xs != [] {
      SortIsStable(xs[1..], leq, p);
      InsertIsStable(xs[0], Sort(xs[1..], leq), leq, p);
    }
  }

  lemma {:induction false} InsertIsStable<T(!new)>(x: T, ys: seq<T>, leq: (T, T) -> bool, p: T -> bool)
    requires AllTie(leq, p)
    ensures Filter(Insert(x, ys, leq), p) == (if p(x) then [x] else []) + Filter(ys, p)
  {
    if ys == [] || leq(x, ys[0]) {
      FilterPrepend(x, ys, p);
    } else {
      InsertIsStable(x, ys[1..], leq, p);
      FilterPrepend(ys[0], Insert(x, ys[1..], leq), p);
      assert !(p(x) && p(ys[0]));
    }
  }

  lemma {:induction false} FilterPrepend<T>(x: T, ys: seq<T>, p: T -> bool)
    ensures Filter([x] + ys, p) == (if p(x) then [x] else []) + Filter(ys, p)
  {
    assert ([x] + ys)[1..] == ys;
  }

  lemma {:induction false} FilterOfSorted<T(!new)>(xs: seq<T>, p: T -> bool, leq: (T, T) -> bool)
    requires Sorted(xs, leq)
    ensures Sorted(Filter(xs, p), leq)
  {
    if xs != [] {
      FilterOfSorted(xs[1..], p, leq);
      FilterMembers(xs[1..], p);
      var rest := Filter(xs[1..], p);
      forall j | 0 <= j < |rest| ensures leq(xs[0], rest[j]) {
        assert rest[j] in xs[1..];
        var k :| 0 <= k < |xs[1..]| && xs[1..][k] == rest[j];
        assert xs[k + 1] == rest[j];
      }
    }
  }
}

/**
 * A walk over finitely many places, each of which decides where the walk goes next, or that it ends.
 * `p(r)` is the place after `r` steps; `None` once the walk has ended.
 */
module Orbits {
  import opened Common

  ghost predicate GoesOnAlike(p: nat -> Option<int>, r: nat, q: nat) {
    p(r) == p(q) ==> p(r + 1) == p(q + 1)
  }

  /** The next place depends on the place alone, and a walk that has ended has ended. */
  ghost predicate IsWalk(p: nat -> Option<int>) {
    && (forall r: nat, q: nat :: GoesOnAlike(p, r, q))
    && (forall r: nat, q: nat :: r <= q && p(r).None? ==> p(q).None?)
  }

  /** The walk is back at a place it was at before. */
  ghost predicate ComesBack(p: nat -> Option<int>, r: nat, q: nat) {
    r < q && p(q).Some? && p(r) == p(q)
  }

  lemma {:induction false} BackGoesRound(p: nat -> Option<int>, r: nat, q: nat, k: nat)
    requires IsWalk(p) && ComesBack(p, r, q)
    ensures p(r + k) == p(q + k)
  {
    if k > 0 {
      BackGoesRound(p, r, q, k - 1);
      assert GoesOnAlike(p, r + k - 1, q + k - 1);
    }
  }

  /** Whoever comes back goes round for ever. */
  lemma {:induction false} BackNeverEnds(p: nat -> Option<int>, r: nat, q: nat, k: nat)
    requires IsWalk(p) && ComesBack(p, r, q)
    ensures p(q + k).Some?
  {
    BackGoesRound(p, r, q, k);
    if r + k > q {
      BackNeverEnds(p, r, q, r + k - q);
    }
  }

  /** From step `t` to the next the walk gets further, if both are steps of it. */
  ghost predicate Rises(p: nat -> Option<int>, t: nat) {
    p(t).Some? && p(t + 1).Some? ==> p(t).value < p(t + 1).value
  }

  lemma {:induction false} StretchRises(p: nat -> Option<int>, r: nat, q: nat)
    requires IsWalk(p) && r < q && p(q).Some?
    requires forall t: nat :: r <= t < q ==> Rises(p, t)
    ensures p(r).Some? && p(r).value < p(q).value
  {
    assert Rises(p, q - 1) && p(q - 1).Some?;
    if r < q - 1 {
      StretchRises(p, r, q - 1);
    }
  }

  /** Every way back passes a place where the walk does not rise, and passes it again. */
  lemma {:induction false} BackFalls(p: nat -> Option<int>, r: nat, q: nat) returns (t: nat)
    requires IsWalk(p) && ComesBack(p, r, q)
    ensures !Rises(p, t) && ComesBack(p, t, t + (q - r))
  {
    if forall t: nat :: r <= t < q ==> Rises(p, t) {
      StretchRises(p, r, q);
    }
    t :| r <= t < q && !Rises(p, t);
    BackGoesRound(p, r, q, t - r);
    BackNeverEnds(p, r, q, t - r);
  }

  /** The places of the first `n` steps. */
  ghost function Places(p: nat -> Option<int>, n: nat): set<Option<int>> {
    if n == 0 then {} else Places(p, n - 1) + {p(n - 1)}
  }

  lemma {:induction false} PlacesAre(p: nat -> Option<int>, n: nat, place: Option<int>)
    ensures place in Places(p, n) <==> exists r: nat :: r < n && p(r) == place
  {
    if n > 0 {
      PlacesAre(p, n - 1, place);
      if r: nat :| r < n && p(r) == place {
        assert r < n - 1 || p(n - 1) == place;
      }
    }
  }

  lemma {:induction false} PlacesAreMany(p: nat -> Option<int>, n: nat)
    requires forall r: nat, q: nat :: !ComesBack(p, r, q)
    requires forall r: nat :: r < n ==> p(r).Some?
    ensures |Places(p, n)| == n
  {
    if n > 0 {
      PlacesAreMany(p, n - 1);
      PlacesAre(p, n - 1, p(n - 1));
      if p(n - 1) in Places(p, n - 1) {
        var r: nat :| r < n - 1 && p(r) == p(n - 1);
        assert ComesBack(p, r, n - 1);
      }
    }
  }

  predicate Below(place: Option<int>, n: nat) {
    place.Some? && 0 <= place.value < n
  }

  lemma {:induction false} FewPlaces(n: nat, s: set<Option<int>>)
    requires forall place :: place in s ==> Below(place, n)
    ensures |s| <= n
  {
    if n > 0 {
      var top := Some(n - 1);
      FewPlaces(n - 1, s - {top});
      assert s <= s - {top} + {top};
      assert top in s ==> s == s - {top} + {top};
      assert top !in s ==> s == s - {top};
    } else {
      assert s == {};
    }
  }

  /** A walk over `n` places ends exactly when it never comes back, and then within `n` steps. */
  lemma {:induction false} EndsIff(p: nat -> Option<int>, n: nat)
    requires IsWalk(p) && forall r: nat :: p(r).Some? ==> Below(p(r), n)
    ensures (exists r: nat :: p(r).None?) <==> forall r: nat, q: nat :: !ComesBack(p, r, q)
    ensures (exists r: nat :: p(r).None?) ==> p(n).None?
  {
    if end: nat :| p(end).None? {
      forall r: nat, q: nat ensures !ComesBack(p, r, q) {
        if ComesBack(p, r, q) {
          BackNeverEnds(p, r, q, if end > q then end - q else 0);
        }
      }
    }
    if (forall r: nat, q: nat :: !ComesBack(p, r, q)) && p(n).Some? {
      PlacesAreMany(p, n + 1);
      var places := Places(p, n + 1);
      forall place | place in places ensures Below(place, n) {
        PlacesAre(p, n + 1, place);
      }
      FewPlaces(n, places);
    }
  }
}
