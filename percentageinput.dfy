/** The `PercentageInput` component: after the caller's change handler
    runs, an integer outside the optional bounds is rewritten to the
    nearer bound and the handler runs a second time. */
module PercentageInput {
  import opened Wrappers
  import opened Decimal
  import opened JsString

  /** `Number.MAX_SAFE_INTEGER`, and its negation as the smallest bound. */
  const MaxSafeInteger: int := 9007199254740991
  const MinSafeInteger: int := -9007199254740991

  function TrimStart(s: string): (r: string)
    ensures |r| <= |s| && r == s[|s| - |r|..]
    ensures |r| > 0 ==> !IsWhitespace(r[0])
  {
    if |s| > 0 && IsWhitespace(s[0]) then TrimStart(s[1..]) else s
  }

  /** The longest prefix of decimal digits. */
  function LeadingDigits(s: string): (r: string)
    ensures AllDigits(r) && r <= s
    ensures |r| < |s| ==> !IsDigit(s[|r|])
  {
    if |s| > 0 && IsDigit(s[0]) then [s[0]] + LeadingDigits(s[1..]) else ""
  }

  /** `parseInt(s, 10)`, with None for NaN: leading white space and one
      sign are skipped, then the leading digits are read. */
  function ParseInt(s: string): Option<int>
  {
    ParseSigned(TrimStart(s))
  }

  /** What `parseInt` reads after the leading white space: one optional
      sign, then the leading digits. */
  function ParseSigned(t: string): Option<int>
  {
    var negative := |t| > 0 && t[0] == '-';
    var rest := if |t| > 0 && (t[0] == '-' || t[0] == '+') then t[1..] else t;
    var digits := LeadingDigits(rest);
    if digits == "" then None
    else
      var magnitude: int := ParseDigits(digits);
      Some(if negative then -magnitude else magnitude)
  }

  lemma {:induction false} LeadingDigitsOfDigits(s: string)
    requires AllDigits(s)
    ensures LeadingDigits(s) == s
  {
    if |s| > 0 {
      assert AllDigits(s[1..]) by {
        forall k | 0 <= k < |s| - 1 ensures IsDigit(s[1..][k]) { assert s[1..][k] == s[k + 1]; }
      }
      LeadingDigitsOfDigits(s[1..]);
    }
  }

  lemma TrimStartKeeps(s: string)
    requires |s| > 0 && (IsDigit(s[0]) || s[0] == '-')
    ensures TrimStart(s) == s
  {
    assert !IsWhitespace(s[0]);
  }

  /** `parseInt` of a string of digits is the number they denote. */
  lemma ParseDigitString(digits: string)
    requires |digits| > 0 && AllDigits(digits)
    ensures ParseInt(digits) == Some(ParseDigits(digits) as int)
  {
    TrimStartKeeps(digits);
    assert ParseInt(digits) == ParseSigned(digits);
    assert ParseSigned(digits) == Some(ParseDigits(digits) as int) by {
      assert digits[0] != '-' && digits[0] != '+';
      LeadingDigitsOfDigits(digits);
    }
  }

  /** `parseInt` of '-' and digits is the negated number. */
  lemma ParseNegatedDigits(digits: string)
    requires |digits| > 0 && AllDigits(digits)
    ensures ParseInt("-" + digits) == Some(-(ParseDigits(digits) as int))
  {
    var s := "-" + digits;
    TrimStartKeeps(s);
    assert ParseInt(s) == ParseSigned(s);
    assert s[0] == '-' && s[1..] == digits;
    LeadingDigitsOfDigits(digits);
    assert LeadingDigits(s[1..]) == digits;
  }

  /** `parseInt` reads back what `toString` writes. */
  lemma ParseIntToString(n: int)
    ensures ParseInt(IntToString(n)) == Some(n)
  {
    var m: nat := if n < 0 then -n else n;
    var digits := NatToString(m);
    ParseNatToString(m);
    if n < 0 {
      assert IntToString(n) == "-" + digits;
      ParseNegatedDigits(digits);
    } else {
      assert IntToString(n) == digits;
      ParseDigitString(digits);
    }
  }

  /** A bound read from the `min` or `max` attribute: an absent or empty
      attribute gives the default; one `parseInt` cannot read gives NaN. */
  function Bound(attribute: string, default: int): (r: Option<int>)
    ensures attribute == "" ==> r == Some(default)
    ensures attribute != "" ==> r == ParseInt(attribute)
  {
    if attribute == "" then Some(default) else ParseInt(attribute)
  }

  /** A bound written as an integer's decimal text is that integer, and an
      absent one leaves the value unbounded on that side up to the safe
      integers. */
  lemma BoundReadsNumber(n: int, default: int)
    ensures Bound(IntToString(n), default) == Some(n)
    ensures Bound("", default) == Some(default)
  {
    ParseIntToString(n);
  }

  predicate Below(v: int, bound: Option<int>) { bound.Some? && v < bound.value }
  predicate Above(v: int, bound: Option<int>) { bound.Some? && v > bound.value }

  /** The value written back into the field, if any. */
  function Correction(value: string, min: string, max: string): (r: Option<string>)
    ensures value == "" || ParseInt(value).None? ==> r.None?
    ensures r.Some? <==> (value != "" && ParseInt(value).Some?
      && (Below(ParseInt(value).value, Bound(min, MinSafeInteger)) || Above(ParseInt(value).value, Bound(max, MaxSafeInteger))))
    ensures r.Some? && Below(ParseInt(value).value, Bound(min, MinSafeInteger)) ==>
      r.value == IntToString(Bound(min, MinSafeInteger).value)
    ensures r.Some? && !Below(ParseInt(value).value, Bound(min, MinSafeInteger)) ==>
      r.value == IntToString(Bound(max, MaxSafeInteger).value)
  {
    if value == "" then None
    else match ParseInt(value)
      case None => None
      case Some(v) =>
        var lo := Bound(min, MinSafeInteger);
        var hi := Bound(max, MaxSafeInteger);
        if Below(v, lo) then Some(IntToString(lo.value))
        else if Above(v, hi) then Some(IntToString(hi.value))
        else None
  }

  /** With consistent bounds a corrected value needs no further correction. */
  lemma CorrectionIsStable(value: string, min: string, max: string)
    requires Correction(value, min, max).Some?
    requires Bound(min, MinSafeInteger).Some? && Bound(max, MaxSafeInteger).Some? ==>
      Bound(min, MinSafeInteger).value <= Bound(max, MaxSafeInteger).value
    ensures Correction(Correction(value, min, max).value, min, max).None?
  {
    var lo := Bound(min, MinSafeInteger);
    var hi := Bound(max, MaxSafeInteger);
    var v := ParseInt(value).value;
    if Below(v, lo) {
      ParseIntToString(lo.value);
    } else {
      ParseIntToString(hi.value);
    }
  }

  /** The input element, whose `value` the handler may overwrite. */
  class Field {
    var value: string

    constructor (initial: string)
      ensures value == initial
    {
      value := initial;
    }

    /** `handleChange`; it returns the field's value at each call of the
        caller's `onChange`. */
    method HandleChange(min: string, max: string) returns (calls: seq<string>)
      modifies this
      ensures Correction(old(value), min, max).None? ==> calls == [old(value)] && value == old(value)
      ensures Correction(old(value), min, max).Some? ==>
        value == Correction(old(value), min, max).value && calls == [old(value), value]
    {
      calls := [value];
      var corrected := Correction(value, min, max);
      if corrected.Some? {
        value := corrected.value;
        calls := calls + [value];
      }
    }
  }
}
