/**
 * Go's integer arithmetic as the dice roller uses it: 64-bit bounds and the
 * truncating quotient and remainder of Go's `/` and `%` (Dafny's own `/` and
 * `%` are Euclidean, so they differ on negative operands).
 */
module GoArith {

  const MinInt64: int := -0x8000_0000_0000_0000
  const MaxInt64: int := 0x7fff_ffff_ffff_ffff

  function Abs(x: int): nat {
    if x < 0 then -x else x
  }

  function Max(a: int, b: int): int {
    if a < b then b else a
  }

  function Min(a: int, b: int): int {
    if a < b then a else b
  }

  /**
   * Division of naturals by repeated subtraction: the quotient and a
   * remainder below `d` (`NatDivModIdentity` recombines them to `m`).
   */
  function NatDivMod(m: nat, d: nat): (qr: (nat, nat))
    requires d > 0
    ensures qr.1 < d
    decreases m
  {
    if m < d then (0, m)
    else
      var (q, r) := NatDivMod(m - d, d);
      (q + 1, r)
  }

  lemma {:induction false} NatDivModIdentity(m: nat, d: nat)
    requires d > 0
    ensures m == d * NatDivMod(m, d).0 + NatDivMod(m, d).1
    decreases m
  {
    if m >= d {
      NatDivModIdentity(m - d, d);
      var q := NatDivMod(m - d, d).0;
      assert d * (q + 1) == d * q + d;
    }
  }

  /** Go's `a / b`: the quotient truncated toward zero. */
  function Quot(a: int, b: int): (q: int)
    requires b != 0
    ensures (a >= 0) == (b > 0) ==> q >= 0
    ensures (a >= 0) == (b < 0) ==> q <= 0
  {
    var u: int := NatDivMod(Abs(a), Abs(b)).0;
    if (a < 0) == (b < 0) then u else -u
  }

  /**
   * Go's `a % b`: the remainder that goes with the truncated quotient, so it
   * takes the sign of `a` and is smaller than `b` in magnitude
   * (`QuotRemIdentity` gives `a == b * (a / b) + a % b`).
   */
  function Rem(a: int, b: int): (r: int)
    requires b != 0
    ensures Abs(r) < Abs(b)
    ensures a >= 0 ==> r >= 0
    ensures a <= 0 ==> r <= 0
  {
    var v: int := NatDivMod(Abs(a), Abs(b)).1;
    if a < 0 then -v else v
  }

  /** Go's quotient and remainder recombine to the dividend. */
  lemma QuotRemIdentity(a: int, b: int)
    requires b != 0
    ensures a == b * Quot(a, b) + Rem(a, b)
  {
    var d := Abs(b);
    NatDivModIdentity(Abs(a), d);
    var u: int := NatDivMod(Abs(a), d).0;
    var p := b * Quot(a, b);
    if b > 0 {
      if a < 0 {
        assert p == b * -u == -(d * u);
      } else {
        assert p == d * u;
      }
    } else {
      if a < 0 {
        assert p == b * u == -(d * u);
      } else {
        assert p == b * -u == d * u;
      }
    }
  }

  /**
   * For a non-negative `a` and a positive `b`, the quotient and remainder
   * are the only pair with `a == b * q + r` and `0 <= r < b`.
   */
  lemma QuotRemUnique(a: int, b: int, q: int, r: int)
    requires a >= 0 && b > 0
    requires a == b * q + r && 0 <= r < b
    ensures Quot(a, b) == q && Rem(a, b) == r
  {
    var q', r' := Quot(a, b), Rem(a, b);
    QuotRemIdentity(a, b);
    assert b * (q - q') == r' - r;
    if q > q' {
      MulAtLeast(b, q - q');
    } else if q < q' {
      MulAtLeast(b, q' - q);
    }
  }

  lemma MulAtLeast(b: int, k: int)
    requires b > 0 && k >= 1
    ensures b * k >= b
  {
    var k': nat := k - 1;
    assert b * k == b * k' + b;
  }
}
