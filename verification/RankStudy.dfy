/** Rank statistics of the signal study: average ranks with ties, the rank
    correlation in squared form, and the momentum buckets. */
module RankStudy {
  import opened Lists

  // --- Counting specification of a rank ------------------------------------

  function CountLess(xs: seq<real>, v: real): nat {
    if xs == [] then 0
    else CountLess(xs[..|xs| - 1], v) + if xs[|xs| - 1] < v then 1 else 0
  }

  function CountEqual(xs: seq<real>, v: real): nat {
    if xs == [] then 0
    else CountEqual(xs[..|xs| - 1], v) + if xs[|xs| - 1] == v then 1 else 0
  }

  /** The average of the places a value shares: those below it, plus half of the
      tie group including itself. */
  function RankOf(xs: seq<real>, v: real): real {
    CountLess(xs, v) as real + (CountEqual(xs, v) + 1) as real / 2.0
  }

  function Ranks(xs: seq<real>): seq<real> {
    seq(|xs|, i requires 0 <= i < |xs| => RankOf(xs, xs[i]))
  }

  function IndicesBelow(xs: seq<real>, v: real): set<nat> {
    set i: nat | i < |xs| && xs[i] < v
  }

  function IndicesEqual(xs: seq<real>, v: real): set<nat> {
    set i: nat | i < |xs| && xs[i] == v
  }

  lemma {:induction false} CountLessIsCardinality(xs: seq<real>, v: real)
    ensures CountLess(xs, v) == |IndicesBelow(xs, v)|
  {
    if xs == [] {
    } else {
      var n := |xs| - 1;
      CountLessIsCardinality(xs[..n], v);
      assert IndicesBelow(xs, v) == IndicesBelow(xs[..n], v) + if xs[n] < v then {n} else {};
    }
  }

  lemma {:induction false} CountEqualIsCardinality(xs: seq<real>, v: real)
    ensures CountEqual(xs, v) == |IndicesEqual(xs, v)|
  {
    if xs == [] {
    } else {
      var n := |xs| - 1;
      CountEqualIsCardinality(xs[..n], v);
      assert IndicesEqual(xs, v) == IndicesEqual(xs[..n], v) + if xs[n] == v then {n} else {};
    }
  }

  // --- The tie-group algorithm ---------------------------------------------

  function At(xs: seq<real>): nat -> real { (i: nat) => if i < |xs| then xs[i] else 0.0 }

  function Indices(n: nat): (r: seq<nat>)
    ensures |r| == n && forall i :: 0 <= i < n ==> r[i] == i
  {
    if n == 0 then [] else Indices(n - 1) + [n - 1]
  }

  function Order(xs: seq<real>): seq<nat> {
    SortBy(Indices(|xs|), At(xs))
  }

  ghost predicate Distinct(order: seq<nat>) {
    forall j, k :: 0 <= j < k < |order| ==> order[j] != order[k]
  }

  ghost predicate Arranges(order: seq<nat>, xs: seq<real>) {
    && |order| == |xs|
    && (forall k :: 0 <= k < |order| ==> order[k] < |xs|)
    && Distinct(order)
    && (forall i: nat :: i < |xs| ==> i in order)
    && (forall j, k :: 0 <= j < k < |order| ==> xs[order[j]] <= xs[order[k]])
  }

  lemma OrderArranges(xs: seq<real>)
    ensures Arranges(Order(xs), xs)
  {
    var ids := Indices(|xs|);
    var order := Order(xs);
    SortIsAscendingPermutation(ids, At(xs));
    CountedOnce(ids);
    forall k | 0 <= k < |order| ensures order[k] in ids {
      assert order[k] in multiset(order);
    }
    forall i: nat | i < |xs| ensures i in order {
      assert ids[i] == i && i in multiset(ids) && i in multiset(order);
    }
    forall j, k | 0 <= j < k < |order|
      ensures order[j] != order[k] && xs[order[j]] <= xs[order[k]]
    {
      assert At(xs)(order[j]) <= At(xs)(order[k]);
      if order[j] == order[k] {
        TwoPlacesCountTwice(order, j, k);
      }
    }
  }

  lemma CountedOnce(ids: seq<nat>)
    requires forall i :: 0 <= i < |ids| ==> ids[i] == i
    ensures forall i :: multiset(ids)[i] <= 1
  {
    if ids == [] {
    } else {
      var n := |ids| - 1;
      CountedOnce(ids[..n]);
      assert ids == ids[..n] + [n];
      assert n !in ids[..n];
    }
  }

  lemma TwoPlacesCountTwice(s: seq<nat>, j: nat, k: nat)
    requires j < k < |s| && s[j] == s[k]
    ensures multiset(s)[s[j]] >= 2
  {
    assert s == s[..k] + [s[k]] + s[k + 1..];
    assert s[..k][j] in multiset(s[..k]);
  }

  function Slots(order: seq<nat>, lo: nat, hi: nat): set<nat>
    requires lo <= hi <= |order|
  {
    set k | lo <= k < hi :: order[k]
  }

  lemma {:induction false} SlotsSize(order: seq<nat>, lo: nat, hi: nat)
    requires Distinct(order) && lo <= hi <= |order|
    ensures |Slots(order, lo, hi)| == hi - lo
  {
    if lo == hi {
    } else {
      SlotsSize(order, lo, hi - 1);
      assert order[hi - 1] !in Slots(order, lo, hi - 1);
      assert Slots(order, lo, hi) == Slots(order, lo, hi - 1) + {order[hi - 1]};
    }
  }

  lemma SlotOf(order: seq<nat>, xs: seq<real>, x: nat) returns (k: nat)
    requires Arranges(order, xs) && x < |xs|
    ensures k < |order| && order[k] == x
  {
    assert x in order;
    k :| 0 <= k < |order| && order[k] == x;
  }

  /** In sorted order a tie group starting at `i` and ending at `j` has exactly
      `i` values below it and `j - i + 1` equal to it. */
  lemma TieGroupCounts(order: seq<nat>, xs: seq<real>, i: nat, j: nat)
    requires Arranges(order, xs)
    requires i <= j < |order| && xs[order[i]] == xs[order[j]]
    requires i > 0 ==> xs[order[i - 1]] < xs[order[i]]
    requires j + 1 < |order| ==> xs[order[j + 1]] != xs[order[i]]
    ensures RankOf(xs, xs[order[i]]) == (i + j) as real / 2.0 + 1.0
  {
    var v := xs[order[i]];
    assert Distinct(order);
    hide Arranges, Distinct;
    BelowTheGroup(order, xs, i);
    EqualIsTheGroup(order, xs, i, j);
    SlotsSize(order, 0, i);
    SlotsSize(order, i, j + 1);
    CountLessIsCardinality(xs, v);
    CountEqualIsCardinality(xs, v);
  }

  lemma BelowTheGroup(order: seq<nat>, xs: seq<real>, i: nat)
    requires Arranges(order, xs) && i < |order|
    requires i > 0 ==> xs[order[i - 1]] < xs[order[i]]
    ensures IndicesBelow(xs, xs[order[i]]) == Slots(order, 0, i)
  {
    forall x: nat | x < |xs| && xs[x] < xs[order[i]] ensures x in Slots(order, 0, i) {
      var k := SlotOf(order, xs, x);
    }
  }

  lemma EqualIsTheGroup(order: seq<nat>, xs: seq<real>, i: nat, j: nat)
    requires Arranges(order, xs)
    requires i <= j < |order| && xs[order[i]] == xs[order[j]]
    requires i > 0 ==> xs[order[i - 1]] < xs[order[i]]
    requires j + 1 < |order| ==> xs[order[j + 1]] != xs[order[i]]
    ensures IndicesEqual(xs, xs[order[i]]) == Slots(order, i, j + 1)
  {
    forall x: nat | x < |xs| && xs[x] == xs[order[i]] ensures x in Slots(order, i, j + 1) {
      var k := SlotOf(order, xs, x);
    }
  }

  lemma ArrangesMeans(order: seq<nat>, xs: seq<real>)
    requires Arranges(order, xs)
    ensures |order| == |xs| && Distinct(order)
    ensures forall k :: 0 <= k < |order| ==> order[k] < |xs|
    ensures forall j, k :: 0 <= j < k < |order| ==> xs[order[j]] <= xs[order[k]]
  {}

  /** Walks the sorted order tie group by tie group and writes the shared place
      into every member's slot. */
  method RankInPlace(xs: seq<real>) returns (ranks: array<real>)
    ensures fresh(ranks)
    ensures ranks[..] == Ranks(xs)
  {
    hide RankOf, Order, Arranges, Distinct;
    var order := Order(xs);
    OrderArranges(xs);
    ArrangesMeans(order, xs);
    ranks := new real[|xs|];
    var i := 0;
    while i < |order|
      invariant 0 <= i <= |order|
      invariant 0 < i < |order| ==> xs[order[i - 1]] < xs[order[i]]
      invariant forall k :: 0 <= k < i ==> ranks[order[k]] == RankOf(xs, xs[order[k]])
    {
      var j := i;
      while j + 1 < |order| && xs[order[j + 1]] == xs[order[i]]
        invariant i <= j < |order|
        invariant forall k :: i <= k <= j ==> xs[order[k]] == xs[order[i]]
      {
        j := j + 1;
      }
      var shared := (i + j) as real / 2.0 + 1.0;
      TieGroupCounts(order, xs, i, j);
      ShareRank(ranks, order, i, j, shared);
      i := j + 1;
    }
    forall x: nat | x < |xs| ensures ranks[x] == RankOf(xs, xs[x]) {
      var k := SlotOf(order, xs, x);
    }
  }

  /** Writes the shared place of one tie group; no other slot is touched. */
  method ShareRank(ranks: array<real>, order: seq<nat>, i: nat, j: nat, shared: real)
    requires i <= j < |order| && Distinct(order)
    requires forall k :: 0 <= k < |order| ==> order[k] < ranks.Length
    modifies ranks
    ensures forall k :: i <= k <= j ==> ranks[order[k]] == shared
    ensures forall k :: 0 <= k < |order| && !(i <= k <= j) ==> ranks[order[k]] == old(ranks[order[k]])
  {
    var k := i;
    while k <= j
      invariant i <= k <= j + 1
      invariant forall m :: i <= m < k ==> ranks[order[m]] == shared
      invariant forall m :: 0 <= m < |order| && !(i <= m < k) ==> ranks[order[m]] == old(ranks[order[m]])
    {
      ranks[order[k]] := shared;
      k := k + 1;
    }
  }

  // --- Laws of ranks -------------------------------------------------------

  function Sum(xs: seq<real>): real {
    if xs == [] then 0.0 else Sum(xs[..|xs| - 1]) + xs[|xs| - 1]
  }

  /** The ranks, within `xs`, of a list of values. */
  function RankSum(xs: seq<real>, vs: seq<real>): real {
    if vs == [] then 0.0 else RankSum(xs, vs[..|vs| - 1]) + RankOf(xs, vs[|vs| - 1])
  }

  function CountGreater(xs: seq<real>, v: real): nat {
    if xs == [] then 0
    else CountGreater(xs[..|xs| - 1], v) + if xs[|xs| - 1] > v then 1 else 0
  }

  lemma {:induction false} Trichotomy(xs: seq<real>, v: real)
    ensures CountLess(xs, v) + CountEqual(xs, v) + CountGreater(xs, v) == |xs|
  {
    if xs == [] {
    } else {
      Trichotomy(xs[..|xs| - 1], v);
    }
  }

  /** A new value lifts everything above it by one and its equals by a half. */
  lemma {:induction false} NewValueLifts(xs: seq<real>, v: real, vs: seq<real>)
    ensures RankSum(xs + [v], vs) ==
            RankSum(xs, vs) + CountGreater(vs, v) as real + CountEqual(vs, v) as real / 2.0
  {
    if vs == [] {
    } else {
      NewValueLifts(xs, v, vs[..|vs| - 1]);
      assert (xs + [v])[..|xs|] == xs;
    }
  }

  lemma {:induction false} RankSumGrows(xs: seq<real>)
    ensures RankSum(xs, xs) == (|xs| * (|xs| + 1)) as real / 2.0
  {
    if xs == [] {
    } else {
      var n := |xs| - 1;
      var before := xs[..n];
      var v := xs[n];
      RankSumGrows(before);
      assert xs == before + [v];
      NewValueLifts(before, v, before);
      Trichotomy(before, v);
      assert (n + 1) * (n + 2) == n * (n + 1) + 2 * (n + 1);
    }
  }

  lemma {:induction false} RankSumIsSum(xs: seq<real>, vs: seq<real>, rs: seq<real>)
    requires |rs| == |vs| && forall i :: 0 <= i < |vs| ==> rs[i] == RankOf(xs, vs[i])
    ensures Sum(rs) == RankSum(xs, vs)
  {
    if vs == [] {
    } else {
      RankSumIsSum(xs, vs[..|vs| - 1], rs[..|rs| - 1]);
    }
  }

  /** Ties or not, the ranks share out the places 1..n: they sum to n(n+1)/2. */
  lemma RanksSum(xs: seq<real>)
    ensures Sum(Ranks(xs)) == (|xs| * (|xs| + 1)) as real / 2.0
  {
    RankSumIsSum(xs, xs, Ranks(xs));
    RankSumGrows(xs);
  }

  ghost predicate Increasing(f: real -> real) {
    forall a, b :: a < b ==> f(a) < f(b)
  }

  function Mapped(f: real -> real, xs: seq<real>): seq<real> {
    seq(|xs|, i requires 0 <= i < |xs| => f(xs[i]))
  }

  lemma {:induction false} CountsSurvive(f: real -> real, xs: seq<real>, v: real)
    requires Increasing(f)
    ensures CountLess(Mapped(f, xs), f(v)) == CountLess(xs, v)
    ensures CountEqual(Mapped(f, xs), f(v)) == CountEqual(xs, v)
  {
    if xs == [] {
    } else {
      var n := |xs| - 1;
      CountsSurvive(f, xs[..n], v);
      assert Mapped(f, xs)[..n] == Mapped(f, xs[..n]);
      assert xs[n] < v || xs[n] == v || xs[n] > v;
    }
  }

  /** Ranks depend on order alone. */
  lemma RanksSurviveTransform(f: real -> real, xs: seq<real>)
    requires Increasing(f)
    ensures Ranks(Mapped(f, xs)) == Ranks(xs)
  {
    forall i | 0 <= i < |xs| ensures Ranks(Mapped(f, xs))[i] == Ranks(xs)[i] {
      CountsSurvive(f, xs, xs[i]);
      assert Mapped(f, xs)[i] == f(xs[i]);
      assert Ranks(Mapped(f, xs))[i] == RankOf(Mapped(f, xs), Mapped(f, xs)[i]);
      assert RankOf(Mapped(f, xs), f(xs[i])) == RankOf(xs, xs[i]);
    }
  }

  // --- Rank correlation, squared -------------------------------------------

  function Times(a: real, b: real): real { a * b }

  function Dot(xs: seq<real>, ys: seq<real>): real
    requires |xs| == |ys|
  {
    if xs == [] then 0.0
    else Dot(xs[..|xs| - 1], ys[..|ys| - 1]) + Times(xs[|xs| - 1], ys[|ys| - 1])
  }

  function Mean(xs: seq<real>): real {
    if xs == [] then 0.0 else Sum(xs) / |xs| as real
  }

  function Centered(xs: seq<real>): seq<real> {
    Mapped(x => x - Mean(xs), xs)
  }

  /** Numerator and squared denominator of a correlation. */
  datatype Correlation = Correlation(num: real, denSquared: real)

  function Spearman(xs: seq<real>, ys: seq<real>): (r: Option<Correlation>)
    requires |xs| == |ys|
  {
    if |xs| < 3 then None
    else
      var a := Centered(Ranks(xs));
      var b := Centered(Ranks(ys));
      var den := Times(Dot(a, a), Dot(b, b));
      if den > 0.0 then Some(Correlation(Dot(a, b), den)) else None
  }

  lemma TimesSign(x: real, y: real)
    ensures x > 0.0 && y > 0.0 ==> Times(x, y) > 0.0
    ensures Times(-x, -y) == Times(x, y)
    ensures Times(0.0, y) == 0.0
  {}

  lemma SquareSign(x: real)
    ensures Times(x, x) >= 0.0
    ensures Times(x, x) == 0.0 <==> x == 0.0
  {
    hide Times;
    TimesSign(x, x);
    TimesSign(-x, -x);
  }

  lemma {:induction false} DotSign(xs: seq<real>)
    ensures Dot(xs, xs) >= 0.0
    ensures Dot(xs, xs) == 0.0 <==> forall i :: 0 <= i < |xs| ==> xs[i] == 0.0
  {
    if xs == [] {
    } else {
      hide Times;
      var n := |xs| - 1;
      DotSign(xs[..n]);
      SquareSign(xs[n]);
      assert forall i :: 0 <= i < n ==> xs[..n][i] == xs[i];
    }
  }

  /** The step of the Cauchy-Schwarz induction, on plain numbers. */
  lemma SchwarzStep(a: real, b: real, c: real, x: real, y: real)
    requires a >= 0.0 && b >= 0.0 && Times(c, c) <= Times(a, b)
    ensures Times(c + Times(x, y), c + Times(x, y)) <= Times(a + Times(x, x), b + Times(y, y))
  {
    CrossTermBound(a, b, c, x, y);
    SchwarzExpansion(a, b, c, x, y, Times(x, y), Times(x, x), Times(y, y));
  }

  lemma SchwarzExpansion(a: real, b: real, c: real, x: real, y: real, z: real, xx: real, yy: real)
    requires z == x * y && xx == x * x && yy == y * y
    requires c * c <= a * b && 2.0 * (c * (x * y)) <= a * (y * y) + b * (x * x)
    ensures Times(c + z, c + z) <= Times(a + xx, b + yy)
  {
    assert Times(c + z, c + z) == c * c + 2.0 * (c * z) + z * z;
    assert Times(a + xx, b + yy) == a * b + (a * yy + b * xx) + xx * yy;
    assert z * z == xx * yy;
  }

  lemma CrossTermBound(a: real, b: real, c: real, x: real, y: real)
    requires a >= 0.0 && b >= 0.0 && c * c <= a * b
    ensures 2.0 * (c * (x * y)) <= a * (y * y) + b * (x * x)
  {
    ProductSign(a, y);
    ProductSign(b, x);
    ProductOfSquares(a, b, c, x, y);
    GeometricMeanBound(a * (y * y), b * (x * x), c * (x * y));
  }

  lemma ProductSign(a: real, y: real)
    requires a >= 0.0
    ensures a * (y * y) >= 0.0
  {
    assert y * y >= 0.0;
  }

  lemma ProductOfSquares(a: real, b: real, c: real, x: real, y: real)
    requires c * c <= a * b
    ensures (c * (x * y)) * (c * (x * y)) <= (a * (y * y)) * (b * (x * x))
  {
    var s := (x * y) * (x * y);
    assert s >= 0.0;
    assert (c * (x * y)) * (c * (x * y)) == (c * c) * s;
    assert (a * (y * y)) * (b * (x * x)) == (a * b) * s;
    assert (a * b - c * c) * s >= 0.0;
  }

  lemma GeometricMeanBound(u: real, v: real, w: real)
    requires u >= 0.0 && v >= 0.0 && w * w <= u * v
    ensures 2.0 * w <= u + v
  {
    assert (u - v) * (u - v) >= 0.0;
    assert (2.0 * w) * (2.0 * w) <= (u + v) * (u + v);
    if 2.0 * w > u + v {
      SquareStrict(u + v, 2.0 * w);
      assert false;
    }
  }

  lemma PositiveProduct(x: real, y: real)
    requires x > 0.0 && y > 0.0
    ensures x * y > 0.0
  {}

  lemma SquareStrict(p: real, q: real)
    requires 0.0 <= p < q
    ensures p * p < q * q
  {
    PositiveProduct(q - p, q + p);
    assert q * q - p * p == (q - p) * (q + p);
  }

  lemma {:induction false} CauchySchwarz(xs: seq<real>, ys: seq<real>)
    requires |xs| == |ys|
    ensures Times(Dot(xs, ys), Dot(xs, ys)) <= Times(Dot(xs, xs), Dot(ys, ys))
  {
    if xs == [] {
    } else {
      hide Times;
      var n := |xs| - 1;
      CauchySchwarz(xs[..n], ys[..n]);
      DotSign(xs[..n]);
      DotSign(ys[..n]);
      SchwarzStep(Dot(xs[..n], xs[..n]), Dot(ys[..n], ys[..n]), Dot(xs[..n], ys[..n]), xs[n], ys[n]);
    }
  }

  /** A rank correlation lies in [-1, 1]: its square is at most one. */
  lemma SpearmanBounded(xs: seq<real>, ys: seq<real>)
    requires |xs| == |ys| && Spearman(xs, ys).Some?
    ensures var c := Spearman(xs, ys).value;
            c.denSquared > 0.0 && Times(c.num, c.num) <= c.denSquared
  {
    hide Times, Dot;
    CauchySchwarz(Centered(Ranks(xs)), Centered(Ranks(ys)));
  }

  /** Any strictly increasing change of either variable leaves it unchanged, so
      measuring returns against their session mean does not. */
  lemma SpearmanSurvivesTransform(f: real -> real, g: real -> real, xs: seq<real>, ys: seq<real>)
    requires |xs| == |ys| && Increasing(f) && Increasing(g)
    ensures Spearman(Mapped(f, xs), Mapped(g, ys)) == Spearman(xs, ys)
  {
    hide Times, Dot;
    RanksSurviveTransform(f, xs);
    RanksSurviveTransform(g, ys);
  }

  /** Ranks order the values exactly as the values themselves do. */
  lemma RanksPreserveOrder(xs: seq<real>, i: nat, j: nat)
    requires i < |xs| && j < |xs|
    ensures xs[i] < xs[j] <==> Ranks(xs)[i] < Ranks(xs)[j]
    ensures xs[i] == xs[j] <==> Ranks(xs)[i] == Ranks(xs)[j]
  {
    PresentIsCounted(xs, i);
    PresentIsCounted(xs, j);
    if xs[i] < xs[j] {
      LowerRunsShort(xs, xs[i], xs[j]);
    } else if xs[j] < xs[i] {
      LowerRunsShort(xs, xs[j], xs[i]);
    }
  }

  lemma {:induction false} PresentIsCounted(xs: seq<real>, i: nat)
    requires i < |xs|
    ensures CountEqual(xs, xs[i]) >= 1
  {
    if i == |xs| - 1 {
    } else {
      PresentIsCounted(xs[..|xs| - 1], i);
    }
  }

  lemma {:induction false} LowerRunsShort(xs: seq<real>, u: real, v: real)
    requires u < v
    ensures CountLess(xs, u) + CountEqual(xs, u) <= CountLess(xs, v)
  {
    if xs == [] {
    } else {
      LowerRunsShort(xs[..|xs| - 1], u, v);
    }
  }

  predicate Constant(xs: seq<real>) {
    forall i, j :: 0 <= i < j < |xs| ==> xs[i] == xs[j]
  }

  lemma {:induction false} SumOfConstant(xs: seq<real>)
    requires xs != [] && Constant(xs)
    ensures Sum(xs) == Times(|xs| as real, xs[0])
  {
    var n := |xs| - 1;
    if n == 0 {
    } else {
      SumOfConstant(xs[..n]);
      TimesAdds(n as real, 1.0, xs[0]);
    }
  }

  lemma TimesAdds(m: real, n: real, x: real)
    ensures Times(m + n, x) == Times(m, x) + Times(n, x)
    ensures Times(1.0, x) == x
  {}

  lemma MeanOfConstant(xs: seq<real>)
    requires xs != [] && Constant(xs)
    ensures Mean(xs) == xs[0]
  {
    SumOfConstant(xs);
    TimesDivides(|xs| as real, xs[0]);
  }

  lemma TimesDivides(n: real, x: real)
    requires n != 0.0
    ensures Times(n, x) / n == x
    ensures Times(n, x / n) == x
  {}

  lemma NoSpreadIffConstant(xs: seq<real>)
    requires xs != []
    ensures Dot(Centered(xs), Centered(xs)) == 0.0 <==> Constant(xs)
  {
    hide Dot, Mean;
    DotSign(Centered(xs));
    if Constant(xs) {
      MeanOfConstant(xs);
    } else {
      var i, j :| 0 <= i < j < |xs| && xs[i] != xs[j];
      assert Centered(xs)[i] != Centered(xs)[j];
    }
  }

  /** The correlation is undefined exactly for fewer than three points or when
      one of the variables never varies. */
  lemma SpearmanDefined(xs: seq<real>, ys: seq<real>)
    requires |xs| == |ys|
    ensures Spearman(xs, ys).None? <==> |xs| < 3 || Constant(xs) || Constant(ys)
  {
    if |xs| >= 3 {
      var a := Centered(Ranks(xs));
      var b := Centered(Ranks(ys));
      RanksConstant(xs);
      RanksConstant(ys);
      NoSpreadIffConstant(Ranks(xs));
      NoSpreadIffConstant(Ranks(ys));
      DotSign(a);
      DotSign(b);
      TimesSign(Dot(a, a), Dot(b, b));
      TimesSign(Dot(b, b), Dot(a, a));
      TimesCommutes(Dot(a, a), Dot(b, b));
      hide Times, Dot, Centered, Ranks, Constant;
      assert Spearman(xs, ys).None? <==> !(Times(Dot(a, a), Dot(b, b)) > 0.0);
    }
  }

  lemma TimesCommutes(x: real, y: real)
    ensures Times(x, y) == Times(y, x)
  {}

  lemma RanksConstant(xs: seq<real>)
    ensures Constant(Ranks(xs)) <==> Constant(xs)
  {
    forall i, j | 0 <= i < j < |xs| ensures xs[i] == xs[j] <==> Ranks(xs)[i] == Ranks(xs)[j] {
      RanksPreserveOrder(xs, i, j);
    }
  }

  // --- Which way a correlation points -----------------------------------------

  ghost predicate Decreasing(f: real -> real) {
    forall a, b :: a < b ==> f(a) > f(b)
  }

  function Negated(xs: seq<real>): seq<real> { Mapped(x => -x, xs) }

  lemma {:induction false} DotCommutes(xs: seq<real>, ys: seq<real>)
    requires |xs| == |ys|
    ensures Dot(xs, ys) == Dot(ys, xs)
  {
    if xs == [] {
    } else {
      DotCommutes(xs[..|xs| - 1], ys[..|ys| - 1]);
      TimesCommutes(xs[|xs| - 1], ys[|ys| - 1]);
      hide Times;
    }
  }

  lemma {:induction false} DotOfNegated(xs: seq<real>, ys: seq<real>)
    requires |xs| == |ys|
    ensures Dot(Negated(xs), ys) == -Dot(xs, ys)
  {
    if xs == [] {
    } else {
      var n := |xs| - 1;
      DotOfNegated(xs[..n], ys[..n]);
      assert Negated(xs)[..n] == Negated(xs[..n]);
      TimesNegated(xs[n], ys[n]);
      hide Times;
    }
  }

  lemma TimesNegated(x: real, y: real)
    ensures Times(-x, y) == -Times(x, y)
  {}

  /** The correlation does not depend on which variable is named first. */
  lemma SpearmanSymmetric(xs: seq<real>, ys: seq<real>)
    requires |xs| == |ys|
    ensures Spearman(xs, ys) == Spearman(ys, xs)
  {
    var a, b := Centered(Ranks(xs)), Centered(Ranks(ys));
    DotCommutes(a, b);
    TimesCommutes(Dot(a, a), Dot(b, b));
    hide Times, Dot, Centered, Ranks;
  }

  lemma {:induction false} CountsReverse(f: real -> real, xs: seq<real>, v: real)
    requires Decreasing(f)
    ensures CountLess(Mapped(f, xs), f(v)) == CountGreater(xs, v)
    ensures CountEqual(Mapped(f, xs), f(v)) == CountEqual(xs, v)
  {
    if xs == [] {
    } else {
      var n := |xs| - 1;
      CountsReverse(f, xs[..n], v);
      assert Mapped(f, xs)[..n] == Mapped(f, xs[..n]);
      assert xs[n] < v || xs[n] == v || xs[n] > v;
    }
  }

  /** Turning the order round reflects every rank in the middle place. */
  lemma RanksReflect(f: real -> real, xs: seq<real>)
    requires Decreasing(f)
    ensures Ranks(Mapped(f, xs)) == Mapped(r => |xs| as real + 1.0 - r, Ranks(xs))
  {
    forall i | 0 <= i < |xs| ensures Ranks(Mapped(f, xs))[i] == |xs| as real + 1.0 - Ranks(xs)[i] {
      CountsReverse(f, xs, xs[i]);
      Trichotomy(xs, xs[i]);
      assert Mapped(f, xs)[i] == f(xs[i]);
      assert Ranks(Mapped(f, xs))[i] == RankOf(Mapped(f, xs), Mapped(f, xs)[i]);
    }
  }

  lemma {:induction false} SumReflects(c: real, xs: seq<real>)
    ensures Sum(Mapped(x => c - x, xs)) == Times(|xs| as real, c) - Sum(xs)
  {
    if xs == [] {
    } else {
      var n := |xs| - 1;
      SumReflects(c, xs[..n]);
      assert Mapped(x => c - x, xs)[..n] == Mapped(x => c - x, xs[..n]);
      TimesAdds(n as real, 1.0, c);
    }
  }

  lemma CenteredReflects(c: real, xs: seq<real>)
    requires xs != []
    ensures Centered(Mapped(x => c - x, xs)) == Negated(Centered(xs))
  {
    var mapped := Mapped(x => c - x, xs);
    SumReflects(c, xs);
    MeanReflects(|xs| as real, c, Sum(xs));
    assert Mean(mapped) == c - Mean(xs);
    forall i | 0 <= i < |xs| ensures Centered(mapped)[i] == Negated(Centered(xs))[i] {
      assert mapped[i] == c - xs[i];
    }
  }

  lemma MeanReflects(n: real, c: real, sum: real)
    requires n != 0.0
    ensures (Times(n, c) - sum) / n == c - sum / n
  {
    assert n * (c - sum / n) == n * c - sum;
  }

  /** A strictly decreasing change of one variable turns the sign round, and
      changes nothing else. */
  lemma SpearmanReverses(f: real -> real, xs: seq<real>, ys: seq<real>)
    requires |xs| == |ys| && Decreasing(f)
    ensures Spearman(Mapped(f, xs), ys).Some? <==> Spearman(xs, ys).Some?
    ensures Spearman(xs, ys).Some? ==>
              && Spearman(Mapped(f, xs), ys).value.num == -Spearman(xs, ys).value.num
              && Spearman(Mapped(f, xs), ys).value.denSquared == Spearman(xs, ys).value.denSquared
  {
    if |xs| >= 3 {
      var a, b := Centered(Ranks(xs)), Centered(Ranks(ys));
      var turned := Centered(Ranks(Mapped(f, xs)));
      RanksReflect(f, xs);
      CenteredReflects(|xs| as real + 1.0, Ranks(xs));
      assert turned == Negated(a);
      DotOfNegated(a, b);
      DotOfNegated(a, a);
      DotOfNegated(a, turned);
      DotCommutes(turned, a);
      hide Times, Dot, Centered, Ranks, Negated;
    }
  }

  /** Where it is defined, a variable agrees perfectly with itself and with every
      strictly increasing function of itself, and disagrees perfectly with every strictly
      decreasing one: the numerator is the positive root of the squared denominator, or
      the negative one. */
  lemma SpearmanPerfect(f: real -> real, xs: seq<real>)
    requires |xs| >= 3 && !Constant(xs)
    ensures Spearman(xs, xs).Some? && Spearman(xs, xs).value.num > 0.0
    ensures Increasing(f) ==>
              && Spearman(xs, Mapped(f, xs)).Some?
              && var c := Spearman(xs, Mapped(f, xs)).value; c.num > 0.0 && Times(c.num, c.num) == c.denSquared
    ensures Decreasing(f) ==>
              && Spearman(xs, Mapped(f, xs)).Some?
              && var c := Spearman(xs, Mapped(f, xs)).value; c.num < 0.0 && Times(c.num, c.num) == c.denSquared
  {
    SelfCorrelation(xs);
    var own := Spearman(xs, xs).value;
    if Increasing(f) {
      var id: real -> real := x => x;
      assert Mapped(id, xs) == xs;
      SpearmanSurvivesTransform(id, f, xs, xs);
    }
    if Decreasing(f) {
      SpearmanReverses(f, xs, xs);
      SpearmanSymmetric(xs, Mapped(f, xs));
      TimesSign(own.num, own.num);
    }
    hide Times, Spearman, Constant;
  }

  lemma SelfCorrelation(xs: seq<real>)
    requires |xs| >= 3 && !Constant(xs)
    ensures Spearman(xs, xs).Some?
    ensures var c := Spearman(xs, xs).value; c.num > 0.0 && Times(c.num, c.num) == c.denSquared
  {
    SpearmanDefined(xs, xs);
    var a := Centered(Ranks(xs));
    DotSign(a);
    TimesSign(Dot(a, a), Dot(a, a));
    hide Times, Dot, Centered, Ranks;
  }

  // --- Excess returns and momentum buckets ---------------------------------

  /** Returns measured against the session's equal-weight mean sum to nothing,
      and rank the instruments as the raw returns do. */
  lemma SessionExcess(momentum: seq<real>, forward: seq<real>)
    requires |momentum| == |forward|
    ensures Sum(Centered(forward)) == 0.0
    ensures Spearman(momentum, Centered(forward)) == Spearman(momentum, forward)
  {
    var mean := Mean(forward);
    SumOfShifted(forward, mean);
    if forward != [] {
      TimesDivides(|forward| as real, Sum(forward));
    }
    var id: real -> real := x => x;
    assert Mapped(id, momentum) == momentum;
    SpearmanSurvivesTransform(id, x => x - mean, momentum, forward);
    assert Mapped(x => x - mean, forward) == Centered(forward);
  }

  lemma {:induction false} SumOfShifted(xs: seq<real>, c: real)
    ensures Sum(Mapped(x => x - c, xs)) == Sum(xs) - Times(|xs| as real, c)
  {
    var shift := x => x - c;
    if xs == [] {
    } else {
      var n := |xs| - 1;
      SumOfShifted(xs[..n], c);
      assert Mapped(x => x - c, xs)[..n] == Mapped(x => x - c, xs[..n]);
      TimesAdds(n as real, 1.0, c);
    }
  }

  datatype Observation = Observation(momentum: real, excess: real)

  function Momentum(o: Observation): real { o.momentum }

  function Flatten<T>(groups: seq<seq<T>>): seq<T> {
    if groups == [] then [] else Flatten(groups[..|groups| - 1]) + groups[|groups| - 1]
  }

  /** Cuts the observations, sorted by momentum, into equal buckets; the last
      takes the remainder. Laid end to end the buckets are the sorted list, so no
      observation is dropped or counted twice. */
  method MomentumBuckets(obs: seq<Observation>, buckets: nat) returns (groups: seq<seq<Observation>>)
    requires buckets > 0
    ensures Flatten(groups) == SortBy(obs, Momentum) && WeakestFirst(obs, Flatten(groups))
    ensures |groups| <= buckets
    ensures forall g :: g in groups ==> g != []
    ensures |obs| >= buckets ==>
              |groups| == buckets && forall b :: 0 <= b < buckets - 1 ==> |groups[b]| == |obs| / buckets
  {
    groups := [];
    SortedWeakestFirst(obs);
    hide WeakestFirst, SortBy, Edge;
    if obs == [] {
      return;
    }
    var ordered := SortBy(obs, Momentum);
    var size := if |ordered| / buckets > 1 then |ordered| / buckets else 1;
    BucketsFit(|ordered|, buckets, size);
    Edges(|ordered|, buckets, size);
    var b := 0;
    while b < buckets
      invariant 0 <= b <= buckets
      invariant |groups| <= b
      invariant forall g :: g in groups ==> g != []
      invariant Edge(|ordered|, buckets, size, b) <= |ordered|
      invariant Flatten(groups) == ordered[..Edge(|ordered|, buckets, size, b)]
      invariant |obs| >= buckets ==> |groups| == b
      invariant |obs| >= buckets ==> forall k :: 0 <= k < b && k < buckets - 1 ==> |groups[k]| == size
    {
      var lo, hi := Edge(|ordered|, buckets, size, b), Edge(|ordered|, buckets, size, b + 1);
      BucketBounds(|ordered|, buckets, size, b);
      var group := ordered[lo..hi];
      assert ordered[..lo] + group == ordered[..hi];
      if group != [] {
        FlattenGrows(groups, group);
        groups := groups + [group];
      }
      b := b + 1;
    }
  }

  /** The same observations with their momentum in order, the weakest first. */
  ghost predicate WeakestFirst(obs: seq<Observation>, ordered: seq<Observation>) {
    && multiset(ordered) == multiset(obs)
    && forall i, j :: 0 <= i < j < |ordered| ==> ordered[i].momentum <= ordered[j].momentum
  }

  lemma SortedWeakestFirst(obs: seq<Observation>)
    ensures WeakestFirst(obs, SortBy(obs, Momentum))
  {
    hide SortBy;
    SortIsAscendingPermutation(obs, Momentum);
    var ordered := SortBy(obs, Momentum);
    forall i, j | 0 <= i < j < |ordered| ensures ordered[i].momentum <= ordered[j].momentum {
      assert Momentum(ordered[i]) <= Momentum(ordered[j]);
    }
  }

  function Clip(i: nat, n: nat): nat { if i <= n then i else n }

  /** Where bucket `b` begins: the last bucket ends with the list. */
  function Edge(n: nat, buckets: nat, size: nat, b: nat): nat {
    if b >= buckets then n else Clip(b * size, n)
  }

  lemma Edges(n: nat, buckets: nat, size: nat)
    requires buckets > 0
    ensures Edge(n, buckets, size, 0) == 0 && Edge(n, buckets, size, buckets) == n
  {}

  lemma BucketsFit(n: nat, buckets: nat, size: nat)
    requires buckets > 0 && size == if n / buckets > 1 then n / buckets else 1
    ensures n >= buckets ==> size == n / buckets && buckets * size <= n
    ensures n < buckets ==> size == 1
  {}

  lemma BucketBounds(n: nat, buckets: nat, size: nat, b: nat)
    requires b < buckets && size >= 1
    requires n >= buckets ==> buckets * size <= n
    ensures Edge(n, buckets, size, b) <= Edge(n, buckets, size, b + 1) <= n
    ensures n >= buckets ==> Edge(n, buckets, size, b) < Edge(n, buckets, size, b + 1)
    ensures n >= buckets && b < buckets - 1 ==>
              Edge(n, buckets, size, b + 1) - Edge(n, buckets, size, b) == size
  {
    Sizes(b, size);
    SizesOrder(b + 1, buckets, size);
  }

  lemma Sizes(b: nat, size: nat)
    ensures (b + 1) * size == b * size + size
  {}

  lemma SizesOrder(b: nat, c: nat, size: nat)
    requires b <= c
    ensures b * size <= c * size
  {
    assert c * size - b * size == (c - b) * size;
  }

  lemma FlattenGrows<T>(groups: seq<seq<T>>, g: seq<T>)
    ensures Flatten(groups + [g]) == Flatten(groups) + g
  {
    assert (groups + [g])[..|groups|] == groups;
  }
}
