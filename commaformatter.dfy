/** The `CommaFormatter` component: `replace(/\B(?=(\d{3})+(?!\d))/g, ",")`,
    which puts a comma at every position inside a word where the digits
    that follow form a run whose length is a positive multiple of three. */
module CommaFormatter {
  import opened Decimal

  /** The characters `\w` matches. */
  predicate IsWordChar(c: char)
  {
    ('a' <= c <= 'z') || ('A' <= c <= 'Z') || IsDigit(c) || c == '_'
  }

  /** The length of the run of digits starting at `p`. */
  function DigitRun(s: string, p: nat): (r: nat)
    requires p <= |s|
    ensures p + r <= |s|
    decreases |s| - p
  {
    if p < |s| && IsDigit(s[p]) then 1 + DigitRun(s, p + 1) else 0
  }

  /** The regular expression matches the empty string at `p`: `\B` (both
      neighbours are word characters here, as a digit follows), then a
      digit run of length 3k, k >= 1, that the lookahead `(?!\d)` ends. */
  predicate CommaAt(s: string, p: nat)
  {
    0 < p < |s| && IsWordChar(s[p - 1]) && IsWordChar(s[p])
    && DigitRun(s, p) > 0 && DigitRun(s, p) % 3 == 0
  }

  /** The formatted text of the first `n` characters, with the match
      positions taken in the whole string. */
  function FormatUpTo(s: string, n: nat): string
    requires n <= |s|
  {
    if n == 0 then "" else FormatUpTo(s, n - 1) + (if CommaAt(s, n - 1) then "," else "") + [s[n - 1]]
  }

  function Format(s: string): string
  {
    FormatUpTo(s, |s|)
  }

  /** A number is first turned into its decimal text. */
  datatype Value = Text(text: string) | Number(n: int)

  function FormatValue(v: Value): string
  {
    match v
    case Text(t) => Format(t)
    case Number(n) => Format(IntToString(n))
  }

  function RemoveCommas(s: string): (r: string)
    ensures ',' !in r
  {
    if |s| == 0 then "" else (if s[0] == ',' then "" else [s[0]]) + RemoveCommas(s[1..])
  }

  lemma {:induction false} RemoveCommasConcat(a: string, b: string)
    ensures RemoveCommas(a + b) == RemoveCommas(a) + RemoveCommas(b)
  {
    if |a| == 0 {
      assert a + b == b;
    } else {
      assert (a + b)[0] == a[0];
      assert (a + b)[1..] == a[1..] + b;
      RemoveCommasConcat(a[1..], b);
    }
  }

  /** One character after an optional comma. */
  lemma RemoveCommasSnoc(prefix: string, sep: string, c: char)
    requires (sep == "" || sep == ",") && c != ','
    ensures RemoveCommas(prefix + sep + [c]) == RemoveCommas(prefix) + [c]
  {
    RemoveCommasConcat(prefix + sep, [c]);
    RemoveCommasConcat(prefix, sep);
  }

  lemma {:induction false} RemoveCommasUpTo(s: string, n: nat)
    requires n <= |s| && ',' !in s
    ensures RemoveCommas(FormatUpTo(s, n)) == s[..n]
  {
    if n > 0 {
      RemoveCommasUpTo(s, n - 1);
      var prefix := FormatUpTo(s, n - 1);
      var sep := if CommaAt(s, n - 1) then "," else "";
      assert FormatUpTo(s, n) == prefix + sep + [s[n - 1]];
      assert s[n - 1] in s;
      RemoveCommasSnoc(prefix, sep, s[n - 1]);
      assert s[..n] == s[..n - 1] + [s[n - 1]];
    }
  }

  /** Deleting the inserted commas gives back the text. */
  lemma RemovingCommasRestores(s: string)
    requires ',' !in s
    ensures RemoveCommas(Format(s)) == s
  {
    RemoveCommasUpTo(s, |s|);
  }

  lemma {:induction false} DigitRunOfDigits(s: string, p: nat)
    requires AllDigits(s) && p <= |s|
    ensures DigitRun(s, p) == |s| - p
    decreases |s| - p
  {
    if p < |s| {
      DigitRunOfDigits(s, p + 1);
    }
  }

  lemma {:induction false} NoCommasUnchanged(s: string, n: nat)
    requires n <= |s| && forall p :: 0 <= p < n ==> !CommaAt(s, p)
    ensures FormatUpTo(s, n) == s[..n]
  {
    if n > 0 {
      NoCommasUnchanged(s, n - 1);
      assert s[..n] == s[..n - 1] + [s[n - 1]];
    }
  }

  /** A digit string of at most three digits is left as it is. */
  lemma ShortDigitsUnchanged(s: string)
    requires AllDigits(s) && |s| <= 3
    ensures Format(s) == s
  {
    forall p | 0 <= p < |s| ensures !CommaAt(s, p) {
      DigitRunOfDigits(s, p);
    }
    NoCommasUnchanged(s, |s|);
  }

  /** A first group of one to three digits, then groups of exactly three,
      each after a comma. */
  predicate GroupedShape(r: string)
    decreases |r|
  {
    (1 <= |r| <= 3 && AllDigits(r))
    || (|r| >= 5 && r[|r| - 4] == ',' && AllDigits(r[|r| - 3..]) && GroupedShape(r[..|r| - 4]))
  }

  lemma {:induction false} FormatPrefixAgrees(t: string, u: string, n: nat)
    requires AllDigits(t + u) && |u| == 3 && n <= |t|
    ensures FormatUpTo(t + u, n) == FormatUpTo(t, n)
  {
    if n > 0 {
      FormatPrefixAgrees(t, u, n - 1);
      var s := t + u;
      assert AllDigits(t) by {
        forall k | 0 <= k < |t| ensures IsDigit(t[k]) { assert t[k] == s[k]; }
      }
      DigitRunOfDigits(s, n - 1);
      DigitRunOfDigits(t, n - 1);
      assert s[n - 1] == t[n - 1];
      if n >= 2 {
        assert s[n - 2] == t[n - 2];
      }
      assert CommaAt(s, n - 1) == CommaAt(t, n - 1);
    }
  }

  /** Three more digits at the end add one group. */
  lemma FormatAppendGroup(t: string, u: string)
    requires AllDigits(t + u) && |u| == 3 && |t| > 0
    ensures Format(t + u) == Format(t) + "," + u
  {
    var s := t + u;
    var n := |t|;
    FormatPrefixAgrees(t, u, n);
    DigitRunOfDigits(s, n);
    DigitRunOfDigits(s, n + 1);
    DigitRunOfDigits(s, n + 2);
    assert CommaAt(s, n);
    assert !CommaAt(s, n + 1) && !CommaAt(s, n + 2);
    assert FormatUpTo(s, n + 1) == FormatUpTo(s, n) + "," + [s[n]];
    assert FormatUpTo(s, n + 2) == FormatUpTo(s, n + 1) + [s[n + 1]];
    assert FormatUpTo(s, n + 3) == FormatUpTo(s, n + 2) + [s[n + 2]];
    assert u == [s[n]] + [s[n + 1]] + [s[n + 2]];
  }

  /** A comma and three more digits after a grouped text keep it grouped. */
  lemma GroupedAppend(f: string, u: string)
    requires GroupedShape(f) && AllDigits(u) && |u| == 3
    ensures GroupedShape(f + "," + u)
  {
    var r := f + "," + u;
    assert |f| >= 1;
    assert r[..|r| - 4] == f;
    assert r[|r| - 3..] == u;
  }

  lemma AllDigitsSplit(s: string, k: nat)
    requires AllDigits(s) && k <= |s|
    ensures AllDigits(s[..k]) && AllDigits(s[k..])
  {
    forall j | 0 <= j < k ensures IsDigit(s[..k][j]) { assert s[..k][j] == s[j]; }
    forall j | 0 <= j < |s| - k ensures IsDigit(s[k..][j]) { assert s[k..][j] == s[k + j]; }
  }

  /** A digit string comes out with a first group of one to three digits
      and every later group of exactly three. */
  lemma {:induction false} DigitsAreGrouped(s: string)
    requires AllDigits(s) && |s| > 0
    ensures GroupedShape(Format(s))
    decreases |s|
  {
    if |s| <= 3 {
      ShortDigitsUnchanged(s);
    } else {
      var t, u := s[..|s| - 3], s[|s| - 3..];
      assert s == t + u;
      AllDigitsSplit(s, |s| - 3);
      DigitsAreGrouped(t);
      FormatAppendGroup(t, u);
      GroupedAppend(Format(t), u);
    }
  }

  lemma {:induction false} DigitRunBefore(a: string, c: char, b: string, p: nat)
    requires !IsDigit(c) && p <= |a|
    ensures DigitRun(a + [c] + b, p) == DigitRun(a, p)
    decreases |a| - p
  {
    var s := a + [c] + b;
    if p < |a| {
      assert s[p] == a[p];
      DigitRunBefore(a, c, b, p + 1);
    } else {
      assert s[p] == c;
    }
  }

  lemma {:induction false} DigitRunAfter(a: string, c: char, b: string, q: nat)
    requires q <= |b|
    ensures DigitRun(a + [c] + b, |a| + 1 + q) == DigitRun(b, q)
    decreases |b| - q
  {
    var s := a + [c] + b;
    if q < |b| {
      assert s[|a| + 1 + q] == b[q];
      DigitRunAfter(a, c, b, q + 1);
    }
  }

  lemma {:induction false} FormatBeforeSeparator(a: string, c: char, b: string, n: nat)
    requires !IsWordChar(c) && n <= |a|
    ensures FormatUpTo(a + [c] + b, n) == FormatUpTo(a, n)
  {
    if n > 0 {
      var s := a + [c] + b;
      FormatBeforeSeparator(a, c, b, n - 1);
      DigitRunBefore(a, c, b, n - 1);
      assert s[n - 1] == a[n - 1];
      if n >= 2 {
        assert s[n - 2] == a[n - 2];
      }
      assert CommaAt(s, n - 1) == CommaAt(a, n - 1);
    }
  }

  lemma {:induction false} FormatAfterSeparator(a: string, c: char, b: string, m: nat)
    requires !IsWordChar(c) && m <= |b|
    ensures FormatUpTo(a + [c] + b, |a| + 1 + m) == Format(a) + [c] + FormatUpTo(b, m)
  {
    var s := a + [c] + b;
    if m == 0 {
      FormatBeforeSeparator(a, c, b, |a|);
      assert s[|a|] == c;
      assert !CommaAt(s, |a|);
    } else {
      FormatAfterSeparator(a, c, b, m - 1);
      var p := |a| + m;
      DigitRunAfter(a, c, b, m - 1);
      assert s[p] == b[m - 1];
      if m == 1 {
        assert s[p - 1] == c;
        assert !CommaAt(s, p) && !CommaAt(b, m - 1);
      } else {
        assert s[p - 1] == b[m - 2];
        assert CommaAt(s, p) == CommaAt(b, m - 1);
      }
    }
  }

  /** A character outside `\w` (a '.', a space, a '-') ends every digit
      run and is never next to a match: the text on each side of it is
      formatted on its own. */
  lemma SeparatorSplitsFormat(a: string, c: char, b: string)
    requires !IsWordChar(c)
    ensures Format(a + [c] + b) == Format(a) + [c] + Format(b)
  {
    FormatAfterSeparator(a, c, b, |b|);
  }

  /** In a decimal number the digits after the '.' are grouped like a
      separate integer: in threes counted from their right end. */
  lemma FractionalRunsAreGrouped(whole: string, fraction: string)
    requires AllDigits(whole) && |whole| > 0 && AllDigits(fraction) && |fraction| > 0
    ensures Format(whole + "." + fraction) == Format(whole) + "." + Format(fraction)
    ensures GroupedShape(Format(whole)) && GroupedShape(Format(fraction))
  {
    SeparatorSplitsFormat(whole, '.', fraction);
    DigitsAreGrouped(whole);
    DigitsAreGrouped(fraction);
  }
}
