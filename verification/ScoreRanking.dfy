/** Ranking detections by score. A score is held as the 32-bit integer with the bits of the float. */
module ScoreRanking {
  import opened Tensors
  import opened TensorBytes

  function Magnitude(bits: Int32): int {
    if bits < 0 then bits + 0x8000_0000 else bits
  }

  /** All exponent bits set and a non-zero fraction. */
  predicate IsNaN(bits: Int32) {
    Magnitude(bits) > 0x7F80_0000
  }

  /** Orders the numbers among the floats; both zeros are 0. */
  function Key(bits: Int32): int {
    if bits < 0 then -Magnitude(bits) else Magnitude(bits)
  }

  /** The float comparison `left > right`, false whenever a NaN takes part. */
  predicate Greater(left: Int32, right: Int32) {
    !IsNaN(left) && !IsNaN(right) && Key(left) > Key(right)
  }

  /** The comparator handed to the stable sort. */
  predicate Before(left: Int32, right: Int32) {
    if IsNaN(left) || IsNaN(right) then !IsNaN(left) && IsNaN(right) else Greater(left, right)
  }

  /** The order a stable sort of 0, 1, 2, ... by that comparator makes: ties keep the original order. */
  predicate Ahead(scores: seq<Int32>, left: nat, right: nat)
    requires left < |scores| && right < |scores|
  {
    Before(scores[left], scores[right]) || (!Before(scores[right], scores[left]) && left < right)
  }

  lemma AheadIsTotalOrder(scores: seq<Int32>, a: nat, b: nat, c: nat)
    requires a < |scores| && b < |scores| && c < |scores|
    ensures !Ahead(scores, a, a)
    ensures a != b ==> (Ahead(scores, a, b) <==> !Ahead(scores, b, a))
    ensures Ahead(scores, a, b) && Ahead(scores, b, c) ==> Ahead(scores, a, c)
  {
  }

  predicate Distinct(xs: seq<nat>) {
    forall i, j :: 0 <= i < j < |xs| ==> xs[i] != xs[j]
  }

  /** Indices below `n`, none twice, in order. */
  predicate InOrder(scores: seq<Int32>, n: nat, xs: seq<nat>)
    requires n <= |scores|
  {
    && (forall i :: 0 <= i < |xs| ==> xs[i] < n) && Distinct(xs)
    && (forall i, j :: 0 <= i < j < |xs| ==> Ahead(scores, xs[i], xs[j]))
  }

  /** The best `cap` of the scores, best first. */
  predicate IsTop(scores: seq<Int32>, cap: nat, xs: seq<nat>) {
    && |xs| == (if |scores| < cap then |scores| else cap)
    && InOrder(scores, |scores|, xs)
    && forall u: nat, i :: u < |scores| && u !in xs && 0 <= i < |xs| ==> Ahead(scores, xs[i], u)
  }

  /** The position after which a new index goes: behind everything it is not strictly better than. */
  lemma Inserted(scores: seq<Int32>, n: nat, xs: seq<nat>, p: nat)
    requires n < |scores| && InOrder(scores, n, xs) && p <= |xs|
    requires p > 0 ==> !Before(scores[n], scores[xs[p - 1]])
    requires p < |xs| ==> Before(scores[n], scores[xs[p]])
    ensures InOrder(scores, n + 1, xs[..p] + [n] + xs[p..])
  {
    var ys := xs[..p] + [n] + xs[p..];
    assert forall i :: 0 <= i < |ys| ==> ys[i] == if i < p then xs[i] else if i == p then n else xs[i - 1];
    forall i, j | 0 <= i < j < |ys| ensures Ahead(scores, ys[i], ys[j]) {
      if j == p {
        AheadIsTotalOrder(scores, xs[i], xs[p - 1], n);
      } else if i == p {
        AheadIsTotalOrder(scores, n, xs[p], xs[j - 1]);
      }
    }
  }

  lemma InsertedAll(n: nat, xs: seq<nat>, p: nat)
    requires p <= |xs| == n && forall u: nat :: u < n ==> u in xs
    ensures forall u: nat :: u < n + 1 ==> u in xs[..p] + [n] + xs[p..]
  {
    var ys := xs[..p] + [n] + xs[p..];
    forall u: nat | u < n + 1 ensures u in ys {
      if u == n {
        assert ys[p] == n;
      } else {
        assert u in xs;
        var i :| 0 <= i < |xs| && xs[i] == u;
        assert ys[if i < p then i else i + 1] == u;
      }
    }
  }

  /** Stable sort of the indices by score, then the cut at `cap`. */
  method TopScoreIndices(scores: seq<Int32>, cap: nat) returns (indices: seq<nat>)
    ensures IsTop(scores, cap, indices)
  {
    indices := [];
    for n := 0 to |scores|
      invariant |indices| == n && InOrder(scores, n, indices)
      invariant forall u: nat :: u < n ==> u in indices
    {
      var p: nat := |indices|;
      while p > 0 && Before(scores[n], scores[indices[p - 1]])
        invariant 0 <= p <= |indices|
        invariant p < |indices| ==> Before(scores[n], scores[indices[p]])
      {
        p := p - 1;
      }
      Inserted(scores, n, indices, p);
      InsertedAll(n, indices, p);
      indices := indices[..p] + [n] + indices[p..];
    }
    if |indices| > cap {
      Capped(scores, cap, indices);
      indices := indices[..cap];
    }
  }

  lemma Capped(scores: seq<Int32>, cap: nat, xs: seq<nat>)
    requires cap < |xs| == |scores| && InOrder(scores, |scores|, xs) && forall u: nat :: u < |scores| ==> u in xs
    ensures IsTop(scores, cap, xs[..cap])
  {
    forall u: nat, i | u < |scores| && u !in xs[..cap] && 0 <= i < cap ensures Ahead(scores, xs[i], u) {
      assert u in xs;
      var j :| 0 <= j < |xs| && xs[j] == u;
      assert xs[..cap] == xs[..cap][..cap] && j >= cap;
    }
  }

  /** The ranking leaves nothing open: any two lists that satisfy it are equal. */
  lemma {:induction false} TopUnique(scores: seq<Int32>, cap: nat, xs: seq<nat>, ys: seq<nat>, k: nat)
    requires IsTop(scores, cap, xs) && IsTop(scores, cap, ys) && k <= |xs|
    ensures xs[..k] == ys[..k]
    decreases k
  {
    if k > 0 {
      var i := k - 1;
      TopUnique(scores, cap, xs, ys, i);
      if xs[i] != ys[i] {
        TopLeads(scores, cap, xs, ys, i);
        TopLeads(scores, cap, ys, xs, i);
        AheadIsTotalOrder(scores, xs[i], ys[i], xs[i]);
      }
      assert xs[..k] == xs[..i] + [xs[i]] && ys[..k] == ys[..i] + [ys[i]];
    }
  }

  lemma TopLeads(scores: seq<Int32>, cap: nat, xs: seq<nat>, ys: seq<nat>, i: nat)
    requires IsTop(scores, cap, xs) && IsTop(scores, cap, ys) && i < |xs| && xs[..i] == ys[..i] && xs[i] != ys[i]
    ensures Ahead(scores, xs[i], ys[i])
  {
    if ys[i] in xs {
      var j :| 0 <= j < |xs| && xs[j] == ys[i];
      assert forall m :: 0 <= m < i ==> xs[..i][m] == ys[..i][m];
      assert j > i;
    }
  }

  // -------------------------------------------------- what the ranking means

  /** The fields of a single-precision float: 8 exponent bits above 23 fraction bits. */
  function Exponent(bits: Int32): nat {
    (if bits < 0 then bits + 0x8000_0000 else bits) / 0x80_0000
  }

  function Fraction(bits: Int32): nat {
    (if bits < 0 then bits + 0x8000_0000 else bits) % 0x80_0000
  }

  function Pow2(n: nat): nat {
    if n == 0 then 1 else 2 * Pow2(n - 1)
  }

  /** The value of a float without its sign, in units of the least positive one; infinity is the value its fields would give a number. */
  function Units(exponent: nat, fraction: nat): nat {
    if exponent == 0 then fraction else (0x80_0000 + fraction) * Pow2(exponent - 1)
  }

  /** The value of a float, in units of the least positive one. */
  function Value(bits: Int32): int {
    if bits < 0 then 0 - Units(Exponent(bits), Fraction(bits)) else Units(Exponent(bits), Fraction(bits))
  }

  predicate NotANumber(bits: Int32) {
    Exponent(bits) == 255 && Fraction(bits) != 0
  }

  lemma {:induction false} Pow2Grows(a: nat, b: nat)
    requires a < b
    ensures 0 < 2 * Pow2(a) <= Pow2(b)
    decreases b
  {
    Pow2Positive(a);
    if a + 1 < b {
      Pow2Grows(a, b - 1);
    }
  }

  lemma {:induction false} Pow2Positive(n: nat)
    ensures Pow2(n) > 0
  {
    if n > 0 {
      Pow2Positive(n - 1);
    }
  }

  lemma UnitsGrow(e: nat, f: nat, e': nat, f': nat)
    requires f < 0x80_0000 && f' < 0x80_0000 && (e < e' || (e == e' && f < f'))
    ensures Units(e, f) < Units(e', f')
  {
    if e == e' {
      if e > 0 {
        Pow2Positive(e - 1);
        ProductGrows(0x80_0000 + f, 0x80_0000 + f', Pow2(e - 1));
      }
    } else if e == 0 {
      Pow2Positive(e' - 1);
      ProductAtLeast(0x80_0000 + f', Pow2(e' - 1));
    } else {
      Pow2Grows(e - 1, e' - 1);
      Pow2Positive(e' - 1);
      ProductGrows(0x80_0000 + f, 0x100_0000, Pow2(e - 1));
      assert 0x100_0000 * Pow2(e - 1) == 0x80_0000 * (2 * Pow2(e - 1));
      ProductSteady(0x80_0000, 0x80_0000 + f', Pow2(e' - 1));
    }
  }

  lemma ProductGrows(a: nat, b: nat, x: nat)
    requires a < b && x > 0
    ensures a * x < b * x
  {
    assert b * x == a * x + (b - a) * x;
  }

  lemma ProductSteady(a: nat, b: nat, x: nat)
    requires a <= b
    ensures a * x <= b * x
  {
    assert b * x == a * x + (b - a) * x;
  }

  lemma ProductAtLeast(a: nat, x: nat)
    requires x > 0
    ensures a * x >= a
  {
    assert a * x == a + a * (x - 1);
  }

  /** The comparator of the sort compares the values of the floats, and knows which are not numbers. */
  lemma ComparesValues(left: Int32, right: Int32)
    ensures IsNaN(left) <==> NotANumber(left)
    ensures !NotANumber(left) && !NotANumber(right) ==> (Before(left, right) <==> Value(left) > Value(right))
  {
    var a, b := Magnitude(left), Magnitude(right);
    MagnitudeOrders(left, right);
    MagnitudeOrders(right, left);
    UnitsPositive(left);
    UnitsPositive(right);
    assert a == 0x80_0000 * Exponent(left) + Fraction(left);
  }

  lemma MagnitudeOrders(left: Int32, right: Int32)
    ensures Magnitude(left) < Magnitude(right) ==> Units(Exponent(left), Fraction(left)) < Units(Exponent(right), Fraction(right))
    ensures Magnitude(left) == Magnitude(right) ==> Units(Exponent(left), Fraction(left)) == Units(Exponent(right), Fraction(right))
  {
    if Magnitude(left) < Magnitude(right) {
      UnitsGrow(Exponent(left), Fraction(left), Exponent(right), Fraction(right));
    }
  }

  lemma UnitsPositive(bits: Int32)
    ensures Units(Exponent(bits), Fraction(bits)) == 0 <==> Magnitude(bits) == 0
  {
    if Magnitude(bits) > 0 {
      UnitsGrow(0, 0, Exponent(bits), Fraction(bits));
    }
  }

  /** Score `left`, at position `i`, may stand before `right`, at position `j`: numbers before others, greater before smaller, else in order of position. */
  predicate MayPrecede(left: Int32, i: nat, right: Int32, j: nat) {
    if NotANumber(left) then NotANumber(right) && i < j
    else NotANumber(right) || Value(left) > Value(right) || (Value(left) == Value(right) && i < j)
  }

  /**
   * What a ranking is, in terms of the values of the scores: as many positions as the cap allows, none twice; numbers first, greater
   * ones before smaller, equal ones in order of position; and nothing left out may precede anything kept.
   */
  lemma TopMeans(scores: seq<Int32>, cap: nat, xs: seq<nat>)
    ensures IsTop(scores, cap, xs) <==>
      && |xs| == (if |scores| < cap then |scores| else cap) && (forall i :: 0 <= i < |xs| ==> xs[i] < |scores|)
      && (forall i, j :: 0 <= i < j < |xs| ==> MayPrecede(scores[xs[i]], xs[i], scores[xs[j]], xs[j]))
      && (forall u: nat, i :: u < |scores| && u !in xs && 0 <= i < |xs| ==> MayPrecede(scores[xs[i]], xs[i], scores[u], u))
  {
    forall a: nat, b: nat | a < |scores| && b < |scores| ensures Ahead(scores, a, b) <==> MayPrecede(scores[a], a, scores[b], b) {
      ComparesValues(scores[a], scores[b]);
      ComparesValues(scores[b], scores[a]);
    }
  }
}
