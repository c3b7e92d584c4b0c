/** Decimal notation of integers: `BigInt.prototype.toString()`, the
    left-padding `padStart(k, "0")`, and the reading of a digit string back
    into a number (`BigInt(s)` on a string of digits). */
module Decimal {
  predicate IsDigit(c: char) { '0' <= c <= '9' }

  predicate AllDigits(s: string)
  {
    forall i :: 0 <= i < |s| ==> IsDigit(s[i])
  }

  function DigitChar(d: nat): (c: char)
    requires d < 10
    ensures IsDigit(c)
  {
    ('0' as int + d) as char
  }

  function DigitValue(c: char): (d: nat)
    requires IsDigit(c)
    ensures d < 10 && DigitChar(d) == c
  {
    c as int - '0' as int
  }

  function Pow10(k: nat): (r: nat)
    ensures r >= 1
  {
    if k == 0 then 1 else 10 * Pow10(k - 1)
  }

  /** `n.toString()` for a non-negative `n`. */
  function NatToString(n: nat): (r: string)
    ensures |r| >= 1 && AllDigits(r)
    decreases n
  {
    if n < 10 then [DigitChar(n)] else NatToString(n / 10) + [DigitChar(n % 10)]
  }

  /** `i.toString()`: a minus sign before the digits of a negative number. */
  function IntToString(i: int): (r: string)
    ensures |r| >= 1
  {
    if i < 0 then "-" + NatToString(-i) else NatToString(i)
  }

  /** The number a string of decimal digits denotes (0 for ""). */
  function ParseDigits(s: string): nat
    requires AllDigits(s)
  {
    if s == [] then 0 else 10 * ParseDigits(s[..|s| - 1]) + DigitValue(s[|s| - 1])
  }

  /** Reading back what `toString` wrote gives the number. */
  lemma {:induction false} ParseNatToString(n: nat)
    ensures ParseDigits(NatToString(n)) == n
    decreases n
  {
    var s := NatToString(n);
    if n >= 10 {
      ParseNatToString(n / 10);
      assert s[..|s| - 1] == NatToString(n / 10);
    }
  }

  /** `IntToString` is injective, as the partner of `ParseNatToString`. */
  lemma NatToStringInjective(m: nat, n: nat)
    requires NatToString(m) == NatToString(n)
    ensures m == n
  {
    ParseNatToString(m);
    ParseNatToString(n);
  }

  function Zeros(k: nat): (r: string)
    ensures |r| == k && AllDigits(r)
    ensures forall i :: 0 <= i < k ==> r[i] == '0'
  {
    if k == 0 then "" else Zeros(k - 1) + "0"
  }

  /** `s.padStart(k, "0")`. */
  function PadStart(s: string, k: nat): (r: string)
    ensures |r| == if |s| >= k then |s| else k
  {
    if |s| >= k then s else Zeros(k - |s|) + s
  }

  /** The last `k` decimal digits of `n`, with leading zeros: `n mod 10^k` in
      exactly `k` characters. */
  function Fixed(n: nat, k: nat): (r: string)
    ensures |r| == k && AllDigits(r)
  {
    if k == 0 then "" else Fixed(n / 10, k - 1) + [DigitChar(n % 10)]
  }

  /** `n div 10^k`, one digit at a time. */
  function Quot(n: nat, k: nat): nat
  {
    if k == 0 then n else Quot(n / 10, k - 1)
  }

  /** The digits above the last `k`: "" when `n < 10^k`. */
  function High(n: nat, k: nat): (r: string)
    ensures AllDigits(r)
  {
    if Quot(n, k) == 0 then "" else NatToString(Quot(n, k))
  }

  lemma MulAtLeast(a: int, d: int)
    requires a >= 1 && d > 0
    ensures a * d >= d
  {
  }

  lemma DivUnique(n: int, d: int, q: int, r: int)
    requires d > 0 && 0 <= r < d && n == q * d + r
    ensures n / d == q && n % d == r
  {
    var q0, r0 := n / d, n % d;
    assert n == q0 * d + r0;
    if q0 > q {
      MulAtLeast(q0 - q, d);
    } else if q0 < q {
      MulAtLeast(q - q0, d);
    }
  }

  lemma DivPow10Step(n: nat, k: nat)
    ensures n / Pow10(k + 1) == (n / 10) / Pow10(k)
    ensures n % Pow10(k + 1) == 10 * ((n / 10) % Pow10(k)) + n % 10
  {
    var p := Pow10(k);
    var q := (n / 10) / p;
    var r := (n / 10) % p;
    assert n / 10 == q * p + r;
    assert n == 10 * (n / 10) + n % 10;
    assert n == q * (10 * p) + (10 * r + n % 10);
    assert 10 * r + n % 10 < 10 * p;
    DivUnique(n, 10 * p, q, 10 * r + n % 10);
  }

  /** `Quot` is division by a power of ten. */
  lemma {:induction false} QuotIsDiv(n: nat, k: nat)
    ensures Quot(n, k) == n / Pow10(k)
    decreases k
  {
    if k > 0 {
      QuotIsDiv(n / 10, k - 1);
      DivPow10Step(n, k - 1);
    }
  }

  lemma ZerosFixed(k: nat)
    ensures Fixed(0, k) == Zeros(k)
  {
  }

  lemma PadStartSnoc(x: string, d: char, k: nat)
    ensures PadStart(x + [d], k + 1) == PadStart(x, k) + [d]
  {
    if |x| < k {
      assert Zeros(k + 1 - |x + [d]|) == Zeros(k - |x|);
    }
  }

  /** The zero-padded decimal string of `n` splits into the digits above the
      last `k` and exactly the last `k` digits. */
  lemma {:induction false} PadStartSplits(n: nat, k: nat)
    requires k >= 1
    ensures PadStart(NatToString(n), k) == High(n, k) + Fixed(n, k)
    decreases k
  {
    var d := DigitChar(n % 10);
    assert Fixed(n, k) == Fixed(n / 10, k - 1) + [d];
    assert Quot(n, k) == Quot(n / 10, k - 1);
    if n < 10 {
      assert NatToString(n) == [d];
      QuotZero(k - 1);
      ZerosFixed(k - 1);
      assert PadStart([d], k) == Zeros(k - 1) + [d];
      assert High(n, k) == "";
    } else if k == 1 {
      assert NatToString(n) == NatToString(n / 10) + [d];
      assert High(n, k) == NatToString(n / 10);
      assert Fixed(n, k) == [d];
    } else {
      PadStartSplits(n / 10, k - 1);
      assert NatToString(n) == NatToString(n / 10) + [d];
      PadStartSnoc(NatToString(n / 10), d, k - 1);
      assert High(n, k) == High(n / 10, k - 1);
      assert PadStart(NatToString(n), k) == (High(n / 10, k - 1) + Fixed(n / 10, k - 1)) + [d];
    }
  }

  lemma {:induction false} QuotZero(k: nat)
    ensures Quot(0, k) == 0
  {
    if k > 0 {
      QuotZero(k - 1);
    }
  }

  /** The `k` fixed digits denote `n mod 10^k`. */
  lemma {:induction false} ParseFixed(n: nat, k: nat)
    ensures ParseDigits(Fixed(n, k)) == n % Pow10(k)
    decreases k
  {
    if k > 0 {
      var f := Fixed(n, k);
      assert f[..k - 1] == Fixed(n / 10, k - 1);
      ParseFixed(n / 10, k - 1);
      DivPow10Step(n, k - 1);
    }
  }
}
