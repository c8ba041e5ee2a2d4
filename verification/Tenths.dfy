/** Rounding to one decimal, whatever happens to a value exactly between two tenths. */
module Tenths {
  import opened Prelude

  predicate IsTenth(a: real) {
    (10.0 * a).Floor as real == 10.0 * a
  }

  ghost predicate Rounds(f: real -> real) {
    (forall a, b :: a <= b ==> f(a) <= f(b))
    && (forall a :: -0.05 <= f(a) - a <= 0.05)
    && (forall a :: IsTenth(f(a)))
  }

  lemma WholeTenth(n: int)
    ensures IsTenth(n as real / 10.0)
  {
    assert 10.0 * (n as real / 10.0) == n as real;
  }

  function Nearest(a: real): (r: real)
    ensures IsTenth(r) && -0.05 <= r - a <= 0.05
  {
    var n := (10.0 * a + 0.5).Floor;
    WholeTenth(n);
    n as real / 10.0
  }

  lemma NearestIsMonotone(a: real, b: real)
    requires a <= b
    ensures Nearest(a) <= Nearest(b)
  {
    var m, n := (10.0 * a + 0.5).Floor, (10.0 * b + 0.5).Floor;
    assert m <= n;
  }

  /** One such rounding, with ties going up. */
  function HalfUp(): (f: real -> real)
    ensures Rounds(f)
  {
    assert forall a, b {:trigger Nearest(a), Nearest(b)} :: a <= b ==> Nearest(a) <= Nearest(b) by {
      forall a, b | a <= b ensures Nearest(a) <= Nearest(b) {
        NearestIsMonotone(a, b);
      }
    }
    (a: real) => Nearest(a)
  }

  type Rounding = f: real -> real | Rounds(f) witness HalfUp()

  /** A value is never moved by as much as a tenth, so whole tenths stay. */
  lemma TenthsStay(round: Rounding, a: real)
    requires IsTenth(a)
    ensures round(a) == a
  {
    assert IsTenth(round(a));
    var k, n := (10.0 * round(a)).Floor, (10.0 * a).Floor;
    assert -0.05 <= round(a) - a <= 0.05;
    assert -1 < k - n < 1;
  }

  lemma WholeNumbersStay(round: Rounding, n: int)
    ensures round(n as real) == n as real
  {
    assert (10.0 * (n as real)).Floor == 10 * n;
    TenthsStay(round, n as real);
  }

  /** The value exactly between the tenths `t` and `t + 1`. */
  function Between(t: int): real {
    (2 * t + 1) as real / 20.0
  }

  /** `low` and `high` round to different tenths because the value between two tenths separates them; a value equal to
      it goes the way the rounding sends ties. */
  predicate Separates(round: Rounding, t: int, low: real, high: real) {
    var b := Between(t);
    (low < b < high) || (low < b == high && round(b) > b) || (low == b < high && round(b) < b)
  }

  /** The middle between some two tenths separates them. */
  ghost predicate RoundsApart(round: Rounding, low: real, high: real) {
    exists t: int :: Separates(round, t, low, high)
  }

  function Tenth(round: Rounding, a: real): (k: int)
    ensures round(a) == k as real / 10.0
  {
    assert IsTenth(round(a));
    (10.0 * round(a)).Floor
  }

  lemma SeparatedRoundsDown(round: Rounding, low: real, high: real, t: int)
    requires low <= high && Separates(round, t, low, high)
    ensures round(low) < round(high)
  {
    var k, m := Tenth(round, low), Tenth(round, high);
    assert round(low) - low <= 0.05 && high - round(high) <= 0.05;
    assert k <= t by {
      if low < Between(t) { assert k as real / 10.0 < (t + 1) as real / 10.0; }
    }
    assert m >= t + 1 by {
      if high > Between(t) { assert m as real / 10.0 > t as real / 10.0; }
    }
  }

  lemma RoundedDownIsSeparated(round: Rounding, low: real, high: real)
    requires low <= high && round(low) < round(high)
    ensures Separates(round, Tenth(round, low), low, high)
  {
    var k, m := Tenth(round, low), Tenth(round, high);
    assert k + 1 <= m;
    assert low <= Between(k) && Between(k) <= high;
  }

  /** Two values in order round to different tenths exactly when the middle between two tenths separates them. */
  lemma RoundsLowerIff(round: Rounding, low: real, high: real)
    requires low <= high
    ensures round(low) < round(high) <==> RoundsApart(round, low, high)
  {
    if round(low) < round(high) {
      RoundedDownIsSeparated(round, low, high);
    }
    forall t: int | Separates(round, t, low, high) ensures round(low) < round(high) {
      SeparatedRoundsDown(round, low, high, t);
    }
  }

  /** Values strictly between two neighbouring middles round alike. */
  lemma NoneBetween(round: Rounding, t: int, low: real, high: real)
    requires Between(t) < low <= high < Between(t + 1)
    ensures !RoundsApart(round, low, high)
  {
    forall u: int ensures !Separates(round, u, low, high) {
      assert u <= t ==> Between(u) <= Between(t);
      assert u >= t + 1 ==> Between(u) >= Between(t + 1);
    }
  }

  /** More than a tenth apart is always enough. */
  lemma FarApartRoundsLower(round: Rounding, low: real, high: real)
    requires high - low > 0.1
    ensures round(low) < round(high)
  {
    assert round(low) <= low + 0.05 && round(high) >= high - 0.05;
  }
}
