/**
 The numeric helpers the services share: Python's `max`/`min`/`int`, `round(x, 4)`
 (ties to even), and `Decimal.quantize(..., ROUND_HALF_UP)`, all on exact reals.
 */
module Rounding {

  function Max(a: real, b: real): real { if a >= b then a else b }

  function Min(a: real, b: real): real { if a <= b then a else b }

  function MaxInt(a: int, b: int): int { if a >= b then a else b }

  /** `int(x)`: truncation toward zero. */
  function Trunc(x: real): int {
    if x >= 0.0 then x.Floor else -((-x).Floor)
  }

  /** `_clamp` */
  function Clamp(x: real): (r: real)
    ensures 0.0 <= r <= 1.0
    ensures 0.0 <= x <= 1.0 ==> r == x
  {
    Max(0.0, Min(1.0, x))
  }

  /** The nearest integer; of two equally near ones, the even one. */
  function HalfEven(x: real): (n: int)
    ensures x - 0.5 <= n as real <= x + 0.5
    ensures n as real == x - 0.5 || n as real == x + 0.5 ==> n % 2 == 0
  {
    var f := x.Floor;
    var d := x - f as real;
    if d < 0.5 then f
    else if d > 0.5 then f + 1
    else if f % 2 == 0 then f
    else f + 1
  }

  /** The nearest integer; of two equally near ones, the one farther from zero. */
  function HalfUp(x: real): (n: int)
    ensures x - 0.5 <= n as real <= x + 0.5
    ensures n as real == x - 0.5 ==> x < 0.0
    ensures n as real == x + 0.5 ==> x >= 0.0
  {
    if x >= 0.0 then (x + 0.5).Floor else -((0.5 - x).Floor)
  }

  /** `round(x, 4)` */
  function Round4(x: real): real {
    HalfEven(x * 10000.0) as real / 10000.0
  }

  /** `round(x, 3)` */
  function Round3(x: real): real {
    HalfEven(x * 1000.0) as real / 1000.0
  }

  /** `_round_money` */
  function RoundMoney(x: real): real {
    HalfUp(x * 1000000.0) as real / 1000000.0
  }

  lemma HalfEvenMonotone(x: real, y: real)
    requires x <= y
    ensures HalfEven(x) <= HalfEven(y)
  {
  }

  lemma HalfEvenOfInt(n: int)
    ensures HalfEven(n as real) == n
  {
  }

  lemma HalfUpMonotone(x: real, y: real)
    requires x <= y
    ensures HalfUp(x) <= HalfUp(y)
  {
  }

  lemma HalfUpOfInt(x: real, n: int)
    requires x == n as real
    ensures HalfUp(x) == n
  {
  }

  lemma Round4Monotone(x: real, y: real)
    requires x <= y
    ensures Round4(x) <= Round4(y)
  {
    HalfEvenMonotone(x * 10000.0, y * 10000.0);
  }

  lemma Round4Unit(x: real)
    requires 0.0 <= x <= 1.0
    ensures 0.0 <= Round4(x) <= 1.0
  {
    HalfEvenOfInt(0);
    HalfEvenOfInt(10000);
    Round4Monotone(0.0, x);
    Round4Monotone(x, 1.0);
  }

  /** A value already on the 1e-4 grid is left alone. */
  lemma Round4Grid(x: real)
    ensures Round4(Round4(x)) == Round4(x)
  {
    var n := HalfEven(x * 10000.0);
    assert Round4(x) * 10000.0 == n as real;
    HalfEvenOfInt(n);
  }

  lemma RoundMoneyMonotone(x: real, y: real)
    requires x <= y
    ensures RoundMoney(x) <= RoundMoney(y)
  {
    HalfUpMonotone(x * 1000000.0, y * 1000000.0);
  }

  lemma RoundMoneyNear(x: real)
    ensures x - 0.0000005 <= RoundMoney(x) <= x + 0.0000005
    ensures x >= 0.0 ==> RoundMoney(x) >= 0.0
  {
  }

  /** Multiples of one millionth of a dollar are left alone. */
  lemma RoundMoneyGrid(micros: int)
    ensures RoundMoney(micros as real / 1000000.0) == micros as real / 1000000.0
  {
    var x := micros as real / 1000000.0;
    HalfUpOfInt(x * 1000000.0, micros);
  }

  /** A whole number of millionths of a dollar. */
  predicate OnMicros(x: real) { RoundMoney(x) == x }

  lemma RoundedOnMicros(x: real)
    ensures OnMicros(RoundMoney(x))
  {
    RoundMoneyGrid(HalfUp(x * 1000000.0));
  }

  /** Whole millionths pass through the rounding of a sum. */
  lemma MicrosAdd(x: real, y: real)
    requires OnMicros(x) && x >= 0.0 && y >= 0.0
    ensures RoundMoney(x + y) == x + RoundMoney(y)
  {
    var n, z := HalfUp(x * 1000000.0), y * 1000000.0;
    assert (x + y) * 1000000.0 == n as real + z;
    assert (n as real + z + 0.5).Floor == n + (z + 0.5).Floor;
  }

  /**
   Half-up rounding keeps every amount within a limit below that limit exactly when it
   does not push the limit itself above it; a caller can check this beforehand.
   */
  lemma RoundingRespectsLimit(limit: real)
    requires limit >= 0.0
    ensures (forall x :: 0.0 <= x <= limit ==> RoundMoney(x) <= limit) <==> RoundMoney(limit) <= limit
  {
    if RoundMoney(limit) <= limit {
      forall x | 0.0 <= x <= limit
        ensures RoundMoney(x) <= limit
      {
        RoundMoneyMonotone(x, limit);
      }
    }
  }

  /** Half-up rounding pushes a limit up exactly when its last fraction of a millionth is a half or more. */
  lemma RoundMoneyStaysBelow(limit: real)
    requires limit >= 0.0
    ensures RoundMoney(limit) <= limit <==> limit * 1000000.0 - (limit * 1000000.0).Floor as real < 0.5
  {
    var y := limit * 1000000.0;
    var f := y.Floor;
    if y - f as real < 0.5 {
      assert HalfUp(y) == f;
      assert f as real / 1000000.0 <= y / 1000000.0;
    } else {
      assert HalfUp(y) == f + 1;
      assert (f + 1) as real / 1000000.0 > y / 1000000.0;
    }
    assert y / 1000000.0 == limit;
  }
}
