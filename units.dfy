/** Scaling between decimal amounts and integer base units, idealised over `real`.
    The source computes `Math.round(amount * 10 ** d)` and `Number(amount) / 10 ** d`
    in IEEE doubles; here the same expressions are taken over exact reals, so the
    results below are properties of the intended arithmetic, not of doubles. */
module Units {

  /** Decimal places of the native asset. */
  const TON_DECIMALS: int := 9

  /** `10 ** d` for any integer `d`. */
  function Pow10(d: int): (p: real)
    ensures p > 0.0
    decreases if d < 0 then -d else d
  {
    if d == 0 then 1.0
    else if d > 0 then 10.0 * Pow10(d - 1)
    else Pow10(d + 1) / 10.0
  }

  /** `Math.round`: the nearest integer, halves rounded towards +infinity. */
  function Round(x: real): (n: int)
    ensures n as real - 0.5 <= x < n as real + 0.5
  {
    (x + 0.5).Floor
  }

  /** `BigInt(Math.round(amount * 10 ** decimals))`. */
  function ToBaseUnits(amount: real, decimals: int): (n: int)
    ensures n as real - 0.5 <= amount * Pow10(decimals) < n as real + 0.5
  {
    Round(amount * Pow10(decimals))
  }

  /** `Number(units) / 10 ** decimals`. */
  function FromBaseUnits(units: int, decimals: int): (x: real)
    ensures x * Pow10(decimals) == units as real
  {
    units as real / Pow10(decimals)
  }

  /** Converting to base units and back lands within half a base unit of the amount. */
  lemma ToFromWithinHalfUnit(amount: real, decimals: int)
    ensures var back := FromBaseUnits(ToBaseUnits(amount, decimals), decimals);
            -0.5 / Pow10(decimals) < back - amount <= 0.5 / Pow10(decimals)
  {
    var s := Pow10(decimals);
    var n := ToBaseUnits(amount, decimals);
    RoundedQuotient(amount, s, n);
    assert FromBaseUnits(n, decimals) == n as real / s;
  }

  /** If `n` is `amount * s` rounded, then `n / s` is within `0.5 / s` of `amount`. */
  lemma RoundedQuotient(amount: real, s: real, n: int)
    requires s > 0.0
    requires n as real - 0.5 <= amount * s < n as real + 0.5
    ensures -0.5 / s < n as real / s - amount <= 0.5 / s
  {
    var d := n as real / s - amount;
    assert d * s == n as real - amount * s by {
      assert n as real / s * s == n as real;
    }
    assert -0.5 < d * s <= 0.5;
    assert d == (d * s) / s;
  }

  /** Base units converted to a decimal amount and back are the same base units. */
  lemma FromToExact(units: int, decimals: int)
    ensures ToBaseUnits(FromBaseUnits(units, decimals), decimals) == units
  {
    var s := Pow10(decimals);
    assert units as real / s * s == units as real;
  }
}
