/** The few non-linear facts about reals that the engine's theorems need. */
module Arithmetic {
  import opened Rounding

  /** `x * rate`, under a name: proofs about it need only the laws below, never a multiplication. */
  function Scaled(x: real, rate: real): real { x * rate }

  lemma ScaledNonNegative(x: real, rate: real)
    requires x >= 0.0 && rate >= 0.0
    ensures Scaled(x, rate) >= 0.0
  {
  }

  lemma ScaledMonotone(x: real, y: real, rate: real)
    requires x <= y && rate >= 0.0
    ensures Scaled(x, rate) <= Scaled(y, rate) && Scaled(rate, x) <= Scaled(rate, y)
  {
  }

  lemma ScaledByOne(x: real)
    ensures Scaled(x, 1.0) == x && Scaled(1.0, x) == x && Scaled(x, 0.0) == 0.0
  {
  }

  lemma ScaledSum(x: real, y: real, rate: real)
    ensures Scaled(x + y, rate) == Scaled(x, rate) + Scaled(y, rate)
  {
  }

  /** `x / total`, likewise under a name. */
  function Share(x: real, total: real): real
    requires total != 0.0
  {
    x / total
  }

  lemma ShareNonNegative(x: real, total: real)
    requires x >= 0.0 && total > 0.0
    ensures Share(x, total) >= 0.0
  {
  }

  lemma ShareSum(x: real, y: real, total: real)
    requires total > 0.0
    ensures Share(x, total) + Share(y, total) == Share(x + y, total)
  {
    assert (x / total + y / total) * total == x / total * total + y / total * total == x + y;
  }

  lemma ShareOfAll(total: real)
    requires total > 0.0
    ensures Share(total, total) == 1.0
  {
  }

  lemma ScaledShare(x: real, total: real, factor: real)
    requires total > 0.0 && factor > 0.0
    ensures Scaled(total, factor) > 0.0
    ensures Share(Scaled(x, factor), Scaled(total, factor)) == Share(x, total)
  {
    var q := x / total;
    assert q * total == x;
    assert q * (total * factor) == (q * total) * factor == x * factor;
  }

  lemma QuotientMonotone(a: real, b: real, d: real)
    requires a <= b && d > 0.0
    ensures a / d <= b / d
  {
  }

  lemma CancelFactor(a: real, b: real, k: real)
    requires k > 0.0 && a * k <= b * k
    ensures a <= b
  {
  }

  /** Fractions are compared by cross-multiplying. */
  lemma CrossMultiply(a: real, c: real, b: real, d: real)
    requires c > 0.0 && d > 0.0
    requires a * d <= b * c
    ensures a / c <= b / d
  {
    var q := a / c;
    var p := b / d;
    assert q * c == a && p * d == b;
    assert q * (c * d) == (q * c) * d == a * d;
    assert p * (c * d) == (p * d) * c == b * c;
    CancelFactor(q, p, c * d);
  }

  lemma ShareGrows(v: real, w: real, b: real)
    requires 0.0 <= v <= w && b > 0.0
    ensures v / (v + b) <= w / (w + b)
  {
    ScaledMonotone(v, w, b);
    assert v * (w + b) == v * w + v * b;
    assert w * (v + b) == v * w + w * b;
    CrossMultiply(v, v + b, w, w + b);
  }

  lemma ShareShrinks(v: real, w: real, b: real)
    requires 0.0 <= v <= w && b > 0.0
    ensures b / (w + b) <= b / (v + b) <= 1.0
  {
    ScaledMonotone(v, w, b);
    assert b * (v + b) == b * v + b * b;
    assert b * (w + b) == b * w + b * b;
    CrossMultiply(b, w + b, b, v + b);
    CrossMultiply(b, v + b, 1.0, 1.0);
  }

  lemma ClampMonotone(x: real, y: real)
    requires x <= y
    ensures Clamp(x) <= Clamp(y)
  {
  }

  /** Adding an entry no larger than the mean does not raise the mean. */
  lemma MeanNoHigher(sum: real, x: real, n: nat)
    requires n >= 1 && Scaled(n as real, x) <= sum
    ensures (sum + x) / (n + 1) as real <= sum / n as real
  {
    var k := n as real;
    assert (sum + x) * k == sum * k + x * k;
    assert sum * (k + 1.0) == sum * k + sum;
    CrossMultiply(sum + x, k + 1.0, sum, k);
  }
}
