/**
 * Cosine similarity and the search that ranks skills by it, over exact reals. `root` stands for
 * `Math.sqrt`.
 */
module SkillSearch {
  import opened Common
  import opened StableSort

  type Vector = seq<real>

  ghost predicate ExactRoot(root: real -> real) {
    forall x :: x >= 0.0 ==> root(x) >= 0.0 && root(x) * root(x) == x
  }

  // ---------- products and squares ----------

  lemma ProductIsPositive(x: real, y: real)
    requires x > 0.0 && y > 0.0
    ensures x * y > 0.0
  {
  }

  lemma ProductNotZero(x: real, y: real)
    requires x != 0.0 && y != 0.0
    ensures x * y != 0.0
  {
    ProductIsPositive(if x > 0.0 then x else -x, if y > 0.0 then y else -y);
  }

  lemma SquareIsNatural(x: real)
    ensures x * x >= 0.0
  {
  }

  lemma ZeroProduct(x: real, y: real)
    requires x * y == 0.0
    ensures x == 0.0 || y == 0.0
  {
    if x != 0.0 {
      assert x * y / x == y;
    }
  }

  lemma ZeroSquare(x: real)
    requires x * x == 0.0
    ensures x == 0.0
  {
    var y := x;
    assert x * y == 0.0;
    ZeroProduct(x, y);
  }

  lemma SquareGrows(x: real, y: real)
    requires x > y >= 0.0
    ensures x * x > y * y
  {
    var u, v := x - y, x + y;
    ProductIsPositive(u, v);
    assert u * v == x * x - y * y;
  }

  lemma SquaresInOrder(x: real, y: real)
    requires y >= 0.0 && x * x <= y * y
    ensures -y <= x <= y
  {
    if x > y {
      SquareGrows(x, y);
    } else if -x > y {
      SquareGrows(-x, y);
    }
  }

  lemma ProductGrows(r: real, m: real)
    requires r > 1.0 && m > 0.0
    ensures r * m > m
  {
    var u := r - 1.0;
    ProductIsPositive(u, m);
    assert r * m == u * m + m;
  }

  lemma QuotientInRange(d: real, m: real)
    requires m > 0.0 && -m <= d <= m
    ensures -1.0 <= d / m <= 1.0
  {
    var r := d / m;
    assert r * m == d;
    if r > 1.0 {
      ProductGrows(r, m);
    } else if -r > 1.0 {
      ProductGrows(-r, m);
    }
  }

  lemma SquareOfProduct(s: real, t: real)
    ensures (s * t) * (s * t) == (s * s) * (t * t)
  {
  }

  // ---------- similarity ----------

  /** The products of the first `n` components, summed. */
  function DotTo(a: Vector, b: Vector, n: nat): real
    requires n <= |a| && n <= |b|
  {
    if n == 0 then 0.0 else DotTo(a, b, n - 1) + a[n - 1] * b[n - 1]
  }

  function Magnitude(root: real -> real, a: Vector): real {
    root(DotTo(a, a, |a|))
  }

  function CosineSimilarity(root: real -> real, a: Vector, b: Vector): real {
    if |a| != |b| then 0.0
    else
      var magA, magB := Magnitude(root, a), Magnitude(root, b);
      if magA == 0.0 || magB == 0.0 then 0.0
      else
        ProductNotZero(magA, magB);
        DotTo(a, b, |a|) / (magA * magB)
  }

  // ---------- the range of the similarity ----------

  lemma Divides(p: real, x: real)
    requires p > 0.0 && p * x >= 0.0
    ensures x >= 0.0
  {
  }

  /** One component more: if d*d <= p*q, the mixed term of the square cannot exceed the mixed terms of the product. */
  lemma MixedTerm(d: real, p: real, q: real, x: real, y: real)
    requires p >= 0.0 && q >= 0.0 && d * d <= p * q
    ensures 2.0 * (d * (x * y)) <= p * (y * y) + q * (x * x)
  {
    SquareIsNatural(x);
    SquareIsNatural(y);
    if p == 0.0 {
      SquareIsNatural(d);
      assert d * d == 0.0;
      ZeroSquare(d);
      assert q * (x * x) >= 0.0;
    } else {
      var slack := p * (y * y) + q * (x * x) - 2.0 * (d * (x * y));
      Completed(d, p, q, x, y);
      Divides(p, slack);
    }
  }

  /** p times the slack is a square plus something that is not negative. */
  lemma Completed(d: real, p: real, q: real, x: real, y: real)
    requires d * d <= p * q
    ensures p * (p * (y * y) + q * (x * x) - 2.0 * (d * (x * y))) >= 0.0
  {
    var u, v := p * y, d * x;
    SquareIsNatural(u - v);
    SquareIsNatural(x);
    var rest := (p * q - d * d) * (x * x);
    assert rest >= 0.0;
    assert (u - v) * (u - v) == u * u - 2.0 * (u * v) + v * v;
    assert u * u == p * (p * (y * y));
    assert u * v == p * (d * (x * y));
    assert v * v == d * d * (x * x);
    assert rest == p * (q * (x * x)) - d * d * (x * x);
  }

  lemma Expand(d: real, p: real, q: real, x: real, y: real)
    ensures (d + x * y) * (d + x * y) == d * d + 2.0 * (d * (x * y)) + x * y * (x * y)
    ensures (p + x * x) * (q + y * y) == p * q + (p * (y * y) + q * (x * x)) + x * x * (y * y)
    ensures x * y * (x * y) == x * x * (y * y)
  {
    var u := x * y;
    assert (d + u) * (d + u) == d * d + 2.0 * (d * u) + u * u;
    var v, w := x * x, y * y;
    assert (p + v) * (q + w) == p * q + (p * w + q * v) + v * w;
  }

  lemma OneComponentMore(d: real, p: real, q: real, x: real, y: real, d': real, p': real, q': real)
    requires p >= 0.0 && q >= 0.0 && d * d <= p * q
    requires d' == d + x * y && p' == p + x * x && q' == q + y * y
    ensures d' * d' <= p' * q'
  {
    MixedTerm(d, p, q, x, y);
    Expand(d, p, q, x, y);
  }

  lemma {:induction false} NormIsNatural(a: Vector, n: nat)
    requires n <= |a|
    ensures DotTo(a, a, n) >= 0.0
  {
    if n > 0 {
      NormIsNatural(a, n - 1);
      SquareIsNatural(a[n - 1]);
    }
  }

  /** Cauchy-Schwarz, for vectors of any length. */
  lemma {:induction false} CauchySchwarz(a: Vector, b: Vector, n: nat)
    requires n <= |a| && n <= |b|
    ensures DotTo(a, b, n) * DotTo(a, b, n) <= DotTo(a, a, n) * DotTo(b, b, n)
  {
    if n > 0 {
      CauchySchwarz(a, b, n - 1);
      NormIsNatural(a, n - 1);
      NormIsNatural(b, n - 1);
      var d, p, q, x, y := DotTo(a, b, n - 1), DotTo(a, a, n - 1), DotTo(b, b, n - 1), a[n - 1], b[n - 1];
      OneComponentMore(d, p, q, x, y, DotTo(a, b, n), DotTo(a, a, n), DotTo(b, b, n));
    }
  }

  /** A product no larger than the norms allow, over the magnitudes. */
  lemma RatioInRange(d: real, p: real, q: real, s: real, t: real)
    requires s > 0.0 && t > 0.0 && s * s == p && t * t == q && d * d <= p * q
    ensures s * t > 0.0 && -1.0 <= d / (s * t) <= 1.0
  {
    ProductIsPositive(s, t);
    SquareOfProduct(s, t);
    SquaresInOrder(d, s * t);
    QuotientInRange(d, s * t);
  }

  lemma {:induction false} MagnitudeSquared(root: real -> real, a: Vector)
    requires ExactRoot(root)
    ensures var m := Magnitude(root, a);
      m >= 0.0 && m * m == DotTo(a, a, |a|) && (m == 0.0 <==> DotTo(a, a, |a|) == 0.0)
  {
    NormIsNatural(a, |a|);
    if DotTo(a, a, |a|) == 0.0 {
      ZeroSquare(Magnitude(root, a));
    }
  }

  /** The similarity of any two vectors lies in [-1, 1]. */
  lemma SimilarityInRange(root: real -> real, a: Vector, b: Vector)
    requires ExactRoot(root)
    ensures -1.0 <= CosineSimilarity(root, a, b) <= 1.0
  {
    var s, t := Magnitude(root, a), Magnitude(root, b);
    if |a| == |b| && s != 0.0 && t != 0.0 {
      MagnitudeSquared(root, a);
      MagnitudeSquared(root, b);
      CauchySchwarz(a, b, |a|);
      var d, p, q := DotTo(a, b, |a|), DotTo(a, a, |a|), DotTo(b, b, |b|);
      RatioInRange(d, p, q, s, t);
      assert CosineSimilarity(root, a, b) == d / (s * t);
    }
  }

  lemma {:induction false} DotCommutes(a: Vector, b: Vector, n: nat)
    requires n <= |a| && n <= |b|
    ensures DotTo(a, b, n) == DotTo(b, a, n)
  {
    if n > 0 {
      DotCommutes(a, b, n - 1);
    }
  }

  lemma SimilarityIsSymmetric(root: real -> real, a: Vector, b: Vector)
    ensures CosineSimilarity(root, a, b) == CosineSimilarity(root, b, a)
  {
    if |a| == |b| {
      DotCommutes(a, b, |a|);
    }
  }

  lemma SelfRatio(p: real, s: real, t: real)
    requires s * t == p && p != 0.0
    ensures p / (s * t) == 1.0
  {
  }

  /** A vector is as similar to itself as can be, unless it is null. */
  lemma {:induction false} SelfSimilarity(root: real -> real, a: Vector)
    requires ExactRoot(root)
    ensures CosineSimilarity(root, a, a) == if DotTo(a, a, |a|) == 0.0 then 0.0 else 1.0
  {
    MagnitudeSquared(root, a);
    var s, p := Magnitude(root, a), DotTo(a, a, |a|);
    if s != 0.0 {
      SelfRatio(p, s, s);
    }
  }

  // ---------- what the similarity is ----------

  function Plus(a: Vector, b: Vector): (c: Vector)
    requires |a| == |b|
    ensures |c| == |a| && forall i :: 0 <= i < |a| ==> c[i] == a[i] + b[i]
  {
    seq(|a|, i requires 0 <= i < |a| => a[i] + b[i])
  }

  function Times(x: real, a: Vector): (c: Vector)
    ensures |c| == |a| && forall i :: 0 <= i < |a| ==> c[i] == x * a[i]
  {
    seq(|a|, i requires 0 <= i < |a| => x * a[i])
  }

  /** One in the `k`-th component, nothing in the others. */
  function Unit(n: nat, k: nat): (u: Vector)
    ensures |u| == n && forall i :: 0 <= i < n ==> u[i] == if i == k then 1.0 else 0.0
  {
    seq(n, i requires 0 <= i < n => if i == k then 1.0 else 0.0)
  }

  /** The product takes every component into account: with a unit vector it is that component. */
  lemma {:induction false} DotWithUnit(a: Vector, k: nat, n: nat)
    requires n <= |a|
    ensures DotTo(a, Unit(|a|, k), n) == if k < n then a[k] else 0.0
  {
    if n > 0 {
      DotWithUnit(a, k, n - 1);
    }
  }

  /** And it is linear, which with the former determines it. */
  lemma {:induction false} DotIsLinear(a: Vector, b: Vector, c: Vector, x: real, n: nat)
    requires n <= |a| == |b| == |c|
    ensures DotTo(a, Plus(b, c), n) == DotTo(a, b, n) + DotTo(a, c, n)
    ensures DotTo(a, Times(x, b), n) == x * DotTo(a, b, n)
  {
    if n > 0 {
      DotIsLinear(a, b, c, x, n - 1);
      Distributes(a[n - 1], b[n - 1], c[n - 1], x, DotTo(a, b, n - 1));
    }
  }

  lemma Distributes(p: real, q: real, r: real, x: real, d: real)
    ensures p * (q + r) == p * q + p * r
    ensures x * (d + p * q) == x * d + p * (x * q)
  {
    assert x * (p * q) == p * (x * q);
  }

  /** The similarity is the product over the two magnitudes, whose squares are the norms; 0 where there is none. */
  lemma {:induction false} SimilarityIs(root: real -> real, a: Vector, b: Vector)
    requires ExactRoot(root)
    ensures |a| != |b| ==> CosineSimilarity(root, a, b) == 0.0
    ensures |a| == |b| && (DotTo(a, a, |a|) == 0.0 || DotTo(b, b, |b|) == 0.0) ==> CosineSimilarity(root, a, b) == 0.0
    ensures |a| == |b| && DotTo(a, a, |a|) != 0.0 && DotTo(b, b, |b|) != 0.0 ==>
      var m, n := root(DotTo(a, a, |a|)), root(DotTo(b, b, |b|));
      && m > 0.0 && n > 0.0 && m * m == DotTo(a, a, |a|) && n * n == DotTo(b, b, |b|)
      && CosineSimilarity(root, a, b) * (m * n) == DotTo(a, b, |a|)
  {
    MagnitudeSquared(root, a);
    MagnitudeSquared(root, b);
    var m, n := Magnitude(root, a), Magnitude(root, b);
    if |a| == |b| && m != 0.0 && n != 0.0 {
      ProductNotZero(m, n);
      QuotientBack(DotTo(a, b, |a|), m * n);
    }
  }

  lemma QuotientBack(d: real, m: real)
    requires m != 0.0
    ensures d / m * m == d
  {
  }

  // ---------- search ----------

  /** `embedding` is absent for a skill whose text could not be embedded. */
  datatype Skill = Skill(id: string, embedding: Option<Vector>)

  datatype Hit = Hit(skill: Skill, similarity: real)

  function IsEmbedded(): Skill -> bool {
    (s: Skill) => s.embedding.Some?
  }

  function HitOf(root: real -> real, query: Vector, s: Skill): Hit {
    Hit(s, if s.embedding.Some? then CosineSimilarity(root, query, s.embedding.value) else 0.0)
  }

  /** Every embedded skill of the query's answer, in the order of that answer, with its similarity. */
  function Hits(root: real -> real, query: Vector, skills: seq<Skill>): (hits: seq<Hit>) {
    var embedded := Filter(skills, IsEmbedded());
    seq(|embedded|, i requires 0 <= i < |embedded| => HitOf(root, query, embedded[i]))
  }

  function AtLeast(minSimilarity: real): Hit -> bool {
    (h: Hit) => h.similarity >= minSimilarity
  }

  function MoreSimilar(): (Hit, Hit) -> bool {
    (g: Hit, h: Hit) => h.similarity <= g.similarity
  }

  function Top(hits: seq<Hit>, k: nat): seq<Hit> {
    var ranked := Sort(hits, MoreSimilar());
    if |ranked| > k then ranked[..k] else ranked
  }

  const DEFAULT_MIN: real := 0.35
  const DEFAULT_TOP: nat := 5

  function Qualifying(root: real -> real, query: Vector, skills: seq<Skill>, minSimilarity: Option<real>): seq<Hit> {
    Filter(Hits(root, query, skills), AtLeast(minSimilarity.GetOr(DEFAULT_MIN)))
  }

  function SemanticSearch(root: real -> real, query: Vector, skills: seq<Skill>, minSimilarity: Option<real>,
                          topK: Option<nat>): seq<Hit>
  {
    Top(Qualifying(root, query, skills, minSimilarity), topK.GetOr(DEFAULT_TOP))
  }

  /** The retrieval for generation asks for no minimum. */
  function RetrieveTopK(root: real -> real, query: Vector, skills: seq<Skill>, topK: nat): seq<Hit> {
    Top(Hits(root, query, skills), topK)
  }

  /** `hits` are the `k` best of `pool`: what is left out of the pool is no better than anything in it. */
  ghost predicate AreBest(hits: seq<Hit>, pool: seq<Hit>, k: nat) {
    && |hits| == (if |pool| < k then |pool| else k)
    && Sorted(hits, MoreSimilar())
    && exists rest: seq<Hit> ::
        && multiset(hits) + multiset(rest) == multiset(pool)
        && forall h, g :: h in hits && g in rest ==> g.similarity <= h.similarity
  }

  lemma RankingIsPreorder()
    ensures TotalPreorder(MoreSimilar())
  {
  }

  lemma PrefixIsBest(ranked: seq<Hit>, k: nat)
    requires Sorted(ranked, MoreSimilar())
    ensures AreBest(if |ranked| > k then ranked[..k] else ranked, ranked, k)
  {
    var hits := if |ranked| > k then ranked[..k] else ranked;
    var rest := ranked[|hits|..];
    assert ranked == hits + rest;
    forall h, g | h in hits && g in rest ensures g.similarity <= h.similarity {
      var i :| 0 <= i < |hits| && hits[i] == h;
      var j :| 0 <= j < |rest| && rest[j] == g;
      assert MoreSimilar()(ranked[i], ranked[|hits| + j]);
    }
    assert multiset(hits) + multiset(rest) == multiset(ranked);
  }

  lemma TopAreBest(pool: seq<Hit>, k: nat)
    ensures AreBest(Top(pool, k), pool, k)
  {
    RankingIsPreorder();
    SortSorts(pool, MoreSimilar());
    SameSize(Sort(pool, MoreSimilar()), pool);
    PrefixIsBest(Sort(pool, MoreSimilar()), k);
  }

  lemma SameSize(xs: seq<Hit>, ys: seq<Hit>)
    requires multiset(xs) == multiset(ys)
    ensures |xs| == |ys|
  {
    assert |multiset(xs)| == |multiset(ys)|;
  }

  /** Among equals the ranking keeps the order it was given: the most used skill first. */
  lemma {:induction false} TiesKeepTheirOrder(pool: seq<Hit>, similarity: real)
    ensures var equals := (h: Hit) => h.similarity == similarity;
      Filter(Sort(pool, MoreSimilar()), equals) == Filter(pool, equals)
  {
    SortIsStable(pool, MoreSimilar(), (h: Hit) => h.similarity == similarity);
  }

  /** A hit qualifies exactly when it is an embedded skill of the answer with its own similarity, and enough of it. */
  lemma QualifyingIff(root: real -> real, query: Vector, skills: seq<Skill>, minSimilarity: Option<real>, h: Hit)
    ensures h in Hits(root, query, skills) <==>
      && h.skill in skills && h.skill.embedding.Some?
      && h.similarity == CosineSimilarity(root, query, h.skill.embedding.value)
    ensures h in Qualifying(root, query, skills, minSimilarity)
      <==> h in Hits(root, query, skills) && h.similarity >= if minSimilarity.Some? then minSimilarity.value else 0.35
  {
    FilterMembers(skills, IsEmbedded());
    var embedded, hits := Filter(skills, IsEmbedded()), Hits(root, query, skills);
    FilterMembers(hits, AtLeast(minSimilarity.GetOr(DEFAULT_MIN)));
    if h.skill in embedded && h == HitOf(root, query, h.skill) {
      var i :| 0 <= i < |embedded| && embedded[i] == h.skill;
      assert hits[i] == h;
    }
    if h in hits {
      var i :| 0 <= i < |hits| && hits[i] == h;
      assert embedded[i] == h.skill;
    }
  }

  /** Every embedded skill is a hit as often as the query answers it, and no other; in the query's order. */
  lemma {:induction false} HitsAreEmbeddedSkills(root: real -> real, query: Vector, skills: seq<Skill>, s: Skill)
    ensures var embedded, hits := Filter(skills, IsEmbedded()), Hits(root, query, skills);
      && |hits| == |embedded| && (forall i :: 0 <= i < |hits| ==> hits[i].skill == embedded[i])
      && multiset(embedded)[s] == if s.embedding.Some? then multiset(skills)[s] else 0
  {
    FilterKeeps(skills, IsEmbedded(), s);
  }

  /**
   * The search answers, in descending order, the min(K, qualifying) best: every answer qualifies, and
   * no qualifying skill left out beats one that is returned. Similarities lie in [-1, 1].
   */
  lemma SearchIsBest(root: real -> real, query: Vector, skills: seq<Skill>, minSimilarity: Option<real>,
                     topK: Option<nat>)
    requires ExactRoot(root)
    ensures var found := SemanticSearch(root, query, skills, minSimilarity, topK);
      && AreBest(found, Qualifying(root, query, skills, minSimilarity), if topK.Some? then topK.value else 5)
      && forall h :: h in found ==>
          && h.skill in skills && -1.0 <= h.similarity <= 1.0
          && h.similarity >= if minSimilarity.Some? then minSimilarity.value else 0.35
  {
    var pool := Qualifying(root, query, skills, minSimilarity);
    var found := SemanticSearch(root, query, skills, minSimilarity, topK);
    TopAreBest(pool, topK.GetOr(DEFAULT_TOP));
    forall h | h in found
      ensures h.skill in skills && minSimilarity.GetOr(DEFAULT_MIN) <= h.similarity && -1.0 <= h.similarity <= 1.0
    {
      assert h in multiset(found) && h in multiset(pool);
      QualifyingIff(root, query, skills, minSimilarity, h);
      SimilarityInRange(root, query, h.skill.embedding.value);
    }
  }

  /** The retrieval answers the best of all embedded skills, and a search with the lowest minimum is the same. */
  lemma RetrievalIsBest(root: real -> real, query: Vector, skills: seq<Skill>, topK: nat)
    requires ExactRoot(root)
    ensures AreBest(RetrieveTopK(root, query, skills, topK), Hits(root, query, skills), topK)
    ensures RetrieveTopK(root, query, skills, topK) == SemanticSearch(root, query, skills, Some(-1.0), Some(topK))
  {
    var hits := Hits(root, query, skills);
    TopAreBest(hits, topK);
    forall i | 0 <= i < |hits| ensures AtLeast(-1.0)(hits[i]) {
      assert hits[i] in hits;
      QualifyingIff(root, query, skills, None, hits[i]);
      SimilarityInRange(root, query, hits[i].skill.embedding.value);
    }
    FilterKeepsAll(hits, AtLeast(-1.0));
  }

  lemma {:induction false} FilterKeepsAll(hits: seq<Hit>, p: Hit -> bool)
    requires forall i :: 0 <= i < |hits| ==> p(hits[i])
    ensures Filter(hits, p) == hits
  {
    if hits != [] {
      FilterKeepsAll(hits[1..], p);
    }
  }
}
