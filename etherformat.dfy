/** viem's `formatUnits` and `formatEther` (`formatUnits` with 18 decimals):
    the decimal digits of |v| padded to `decimals` places, the part above the
    last `decimals` digits (or "0"), and the last `decimals` digits with
    trailing zeros dropped, after a '.' when any remain. */
module EtherFormat {
  import opened JsString
  import opened Decimal

  const EtherDecimals: nat := 18
  const WeiPerEther: nat := 1000000000000000000
  /** viem's `maxUint256`, 2^256 - 1. */
  const MaxUint256: nat := 0x1_0000_0000_0000_0000_0000_0000_0000_0000_0000_0000_0000_0000_0000_0000_0000_0000 - 1

  lemma WeiPerEtherIsPow10()
    ensures Pow10(EtherDecimals) == WeiPerEther
  {
    assert Pow10(1) == 10;
    assert Pow10(2) == 100;
    assert Pow10(3) == 1000;
    assert Pow10(4) == 10000;
    assert Pow10(5) == 100000;
    assert Pow10(6) == 1000000;
    assert Pow10(7) == 10000000;
    assert Pow10(8) == 100000000;
    assert Pow10(9) == 1000000000;
    assert Pow10(10) == 10000000000;
    assert Pow10(11) == 100000000000;
    assert Pow10(12) == 1000000000000;
    assert Pow10(13) == 10000000000000;
    assert Pow10(14) == 100000000000000;
    assert Pow10(15) == 1000000000000000;
    assert Pow10(16) == 10000000000000000;
    assert Pow10(17) == 100000000000000000;
    assert Pow10(18) == 1000000000000000000;
  }

  function Abs(v: int): nat { if v < 0 then -v else v }

  function Sign(v: int): string { if v < 0 then "-" else "" }

  /** `s.replace(/(0+)$/, "")`. */
  function TrimTrailingZeros(s: string): (r: string)
    ensures r <= s
    ensures r == [] || r[|r| - 1] != '0'
    ensures forall i :: |r| <= i < |s| ==> s[i] == '0'
  {
    if s == [] || s[|s| - 1] != '0' then s else TrimTrailingZeros(s[..|s| - 1])
  }

  function FormatUnits(v: int, decimals: nat): string
  {
    var padded := PadStart(NatToString(Abs(v)), decimals);
    var integer := padded[..|padded| - decimals];
    var fraction := TrimTrailingZeros(padded[|padded| - decimals..]);
    Sign(v) + (if integer == "" then "0" else integer) + (if fraction == "" then "" else "." + fraction)
  }

  function FormatEther(v: int): string
  {
    FormatUnits(v, EtherDecimals)
  }

  /** The fractional digits `FormatUnits` shows: the `decimals` digits of
      `|v| mod 10^decimals` without their trailing zeros. */
  function FractionDigits(v: int, decimals: nat): (r: string)
    ensures AllDigits(r) && |r| <= decimals
  {
    TrimTrailingZeros(Fixed(Abs(v), decimals))
  }

  /** `FormatUnits` is the sign, the whole units `Quot(|v|, decimals)`, which
      is `|v| div 10^decimals` by `QuotIsDiv`, and the fractional digits after
      a '.' when there are any. */
  lemma FormatUnitsParts(v: int, decimals: nat)
    requires decimals >= 1
    ensures FormatUnits(v, decimals) == Sign(v) + NatToString(Quot(Abs(v), decimals))
      + (if FractionDigits(v, decimals) == "" then "" else "." + FractionDigits(v, decimals))
  {
    var n := Abs(v);
    var hi := High(n, decimals);
    var padded := PadStart(NatToString(n), decimals);
    PadStartSplits(n, decimals);
    assert padded[..|padded| - decimals] == hi;
    assert padded[|padded| - decimals..] == Fixed(n, decimals);
  }

  /** The fractional digits, padded back to `decimals` places, denote
      `|v| mod 10^decimals`: no digit is lost and none is rounded. */
  lemma FractionValue(v: int, decimals: nat)
    ensures ParseDigits(FractionDigits(v, decimals) + Zeros(decimals - |FractionDigits(v, decimals)|))
      == Abs(v) % Pow10(decimals)
  {
    var f := FractionDigits(v, decimals);
    assert f + Zeros(decimals - |f|) == Fixed(Abs(v), decimals);
    ParseFixed(Abs(v), decimals);
  }

  lemma DigitsHaveNoDot(s: string)
    requires AllDigits(s)
    ensures '.' !in s
  {
  }

  /** Splitting `whole` with an optional `.f` at '.', when neither part
      holds a '.'. */
  lemma SplitUnits(whole: string, f: string)
    requires '.' !in whole && '.' !in f
    ensures Split(whole + (if f == "" then "" else "." + f), ".") == if f == "" then [whole] else [whole, f]
  {
    if f == "" {
      assert whole + "" == whole;
      SplitWithout(whole, '.');
    } else {
      assert whole + ("." + f) == whole + ['.'] + f;
      SplitAround(whole, '.', f);
    }
  }

  lemma SignedDigitsHaveNoDot(v: int, digits: string)
    requires AllDigits(digits)
    ensures '.' !in Sign(v) + digits
  {
    DigitsHaveNoDot(digits);
  }

  /** `formatUnits(v, decimals).split(".")[0]`: the sign and the whole units. */
  lemma IntegerPartOfUnits(v: int, decimals: nat)
    requires decimals >= 1
    ensures Split(FormatUnits(v, decimals), ".")[0] == Sign(v) + NatToString(Quot(Abs(v), decimals))
  {
    FormatUnitsParts(v, decimals);
    SignedDigitsHaveNoDot(v, NatToString(Quot(Abs(v), decimals)));
    DigitsHaveNoDot(FractionDigits(v, decimals));
    SplitUnits(Sign(v) + NatToString(Quot(Abs(v), decimals)), FractionDigits(v, decimals));
  }

  /** `formatEther(v).split(".")[0]` is the sign and `|v| div 10^18`. */
  lemma IntegerPart(v: int)
    ensures Split(FormatEther(v), ".")[0] == Sign(v) + NatToString(Quot(Abs(v), EtherDecimals))
  {
    IntegerPartOfUnits(v, EtherDecimals);
  }
}
