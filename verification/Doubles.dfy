// The double-precision numbers that scores become (packages/evaluation/src/comparison.ts:305-308, 334-340):
// a mean is a whole number of hundredths divided by 100, and two of them are subtracted. Doubles are counted
// in units of 2^-59, the spacing of the doubles around one hundredth: every score, every whole number and
// every difference of scores is a whole number of units, and all roundings are to nearest, ties to even.

module Doubles {
  import opened Arithmetic

  const UNIT: nat := 0x800_0000_0000_0000
  /** 2^53 */
  const PRECISION: nat := 0x20_0000_0000_0000

  /** The distance between the doubles around x units. */
  function Spacing(x: nat): (s: nat)
    ensures s == 1 || (s > 1 && s * (PRECISION / 2) <= x)
  {
    if x < PRECISION then 1 else 2 * Spacing(x / 2)
  }

  /** The multiple of s nearest to n / d, and the even one of two equally near. */
  function Nearest(n: nat, d: nat, s: nat): int
    requires d * s > 0
  {
    var q, r := n / (d * s), n % (d * s);
    if 2 * r < d * s || (2 * r == d * s && q % 2 == 0) then q * s else (q + 1) * s
  }

  function Abs(x: int): nat {
    if x < 0 then -x else x
  }

  /** m / 100 as a double. */
  function Score(m: int): int {
    var x: int := Nearest(Abs(m) * UNIT, 100, Spacing(Abs(m) * UNIT / 100));
    if m < 0 then -x else x
  }

  function Whole(n: int): int {
    n * UNIT
  }

  /** The double nearest to a number of units. */
  function Rounded(x: int): int {
    var y: int := Nearest(Abs(x), 1, Spacing(Abs(x)));
    if x < 0 then -y else y
  }

  /** The difference of two scores, as the runtime computes it. */
  function Minus(a: int, b: int): int {
    Rounded(Score(a) - Score(b))
  }

  // ---------- how far roundings go ----------

  lemma NearestClose(n: nat, d: nat, s: nat)
    requires d * s > 0
    ensures Abs(2 * (Nearest(n, d, s) * d - n)) <= d * s
  {
    var e := d * s;
    var q, r := n / e, n % e;
    Quotient(n, e);
    assert q * s * d == q * e && (q + 1) * s * d == q * e + e;
  }

  /** Scores are at most 100, so their doubles are off by far less than a hundredth. */
  lemma ScoreClose(m: nat)
    requires m <= 10_000
    ensures Abs(100 * Score(m) - m * UNIT) <= 640_000
    ensures 0 <= Score(m) <= 101 * UNIT
  {
    var s := Spacing(m * UNIT / 100);
    assert m * UNIT / 100 <= 100 * UNIT;
    assert s <= 12_800;
    NearestClose(m * UNIT, 100, s);
  }

  lemma RoundedClose(x: int)
    requires Abs(x) <= 101 * UNIT
    ensures Abs(Rounded(x) - x) <= 6_464
  {
    assert Spacing(Abs(x)) <= 12_928;
    NearestClose(Abs(x), 1, Spacing(Abs(x)));
  }

  /** The computed difference is off by far less than half a hundredth. */
  lemma MinusClose(a: nat, b: nat)
    requires a <= 10_000 && b <= 10_000
    ensures Abs(100 * Minus(a, b) - (a - b) * UNIT) <= 2_000_000
  {
    ScoreClose(a);
    ScoreClose(b);
    RoundedClose(Score(a) - Score(b));
  }

  /** So a difference beyond a whole bound is computed as such, one within it is not, and only at equality
      does the rounding decide. */
  lemma DropDecided(a: nat, b: nat, n: nat)
    requires a <= 10_000 && b <= 10_000
    ensures a - b > 100 * n ==> Minus(a, b) > Whole(n)
    ensures a - b < 100 * n ==> Minus(a, b) < Whole(n)
  {
    MinusClose(a, b);
  }

  // ---------- comparison with a whole number ----------

  function PowerOfTwo(k: nat): (p: nat)
    ensures p > 0
  {
    if k == 0 then 1 else 2 * PowerOfTwo(k - 1)
  }

  lemma {:induction false} SpacingDivides(x: nat, k: nat) returns (q: nat)
    requires x < PRECISION * PowerOfTwo(k)
    ensures PowerOfTwo(k) == q * Spacing(x)
  {
    if x < PRECISION {
      q := PowerOfTwo(k);
    } else {
      assert PowerOfTwo(k) == 2 * PowerOfTwo(k - 1);
      assert x / 2 < PRECISION * PowerOfTwo(k - 1);
      q := SpacingDivides(x / 2, k - 1);
      assert 2 * (q * Spacing(x / 2)) == q * (2 * Spacing(x / 2));
    }
  }

  lemma NearestExact(t: nat, d: nat, s: nat)
    requires d * s > 0
    ensures Nearest(d * (t * s), d, s) == t * s
  {
    var e := d * s;
    assert d * (t * s) == t * e;
    MultipleOf(t, e);
  }

  lemma Powers()
    ensures PowerOfTwo(8) == 256 && PowerOfTwo(9) == 512
    ensures PowerOfTwo(11) == 2_048 && PowerOfTwo(12) == 4_096 && PowerOfTwo(13) == 8_192
  {
    assert PowerOfTwo(3) == 8;
    assert PowerOfTwo(6) == 64;
  }

  lemma Regroup(a: nat, q: nat, s: nat)
    ensures a * q * s == a * (q * s)
  {
  }

  /** The doubles around a whole number up to 100 are spaced by a divisor of it. */
  lemma WholeSpaced(n: nat) returns (t: nat)
    requires n <= 100
    ensures t * Spacing(n * UNIT) == n * UNIT
  {
    Powers();
    assert UNIT == 0x4000_0000_0000 * 8_192;
    var q := SpacingDivides(n * UNIT, 13);
    t := n * 0x4000_0000_0000 * q;
    Regroup(n * 0x4000_0000_0000, q, Spacing(n * UNIT));
  }

  /** A whole number up to 100 is a double itself. */
  lemma WholeExact(n: nat)
    requires n <= 100
    ensures Score(100 * n) == Whole(n)
  {
    var t := WholeSpaced(n);
    assert 100 * n * UNIT == 100 * (n * UNIT);
    MultipleOf(n * UNIT, 100);
    NearestExact(t, 100, Spacing(n * UNIT));
  }

  /** A score is below a whole bound exactly when its hundredths say so. */
  lemma BelowDecided(m: nat, n: nat)
    requires m <= 10_000 && n <= 100
    ensures Score(m) < Whole(n) <==> m < 100 * n
  {
    ScoreClose(m);
    if m == 100 * n { WholeExact(n); }
  }

  // ---------- a drop that equals its bound ----------

  lemma {:induction false} SpacingIs(x: nat, k: nat)
    requires k > 0 ==> PRECISION * PowerOfTwo(k - 1) <= x
    requires x < PRECISION * PowerOfTwo(k)
    ensures Spacing(x) == PowerOfTwo(k)
  {
    if k > 0 { SpacingIs(x / 2, k - 1); }
  }

  /** 64.4 - 59.4 is computed as 5.000000000000007. */
  lemma DropRoundedUp()
    ensures Minus(6_440, 5_940) > Whole(5)
  {
    Powers();
    SpacingIs(6_440 * UNIT / 100, 13);
    assert Score(6_440) == 37_124_072_448_340_475_904;
    SpacingIs(5_940 * UNIT / 100, 12);
    assert Score(5_940) == 34_241_768_686_823_354_368;
    SpacingIs(2_882_303_761_517_121_536, 9);
  }
}
