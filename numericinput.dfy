/** The `NumericInput` component: which edits, keys and pastes it lets
    through. The patterns are `^\d*\.?\d*$` with decimals and `^\d*$`
    without, where `\d` is an ASCII digit. */
module NumericInput {
  import opened Decimal
  import opened JsString

  /** `^\d*\.?\d*$`: digits, at most one '.', digits. */
  predicate DecimalShape(s: string)
  {
    AllDigits(s) || exists i :: 0 <= i < |s| && DotAt(s, i)
  }

  /** `s` is digits, a '.' at index `i`, digits. */
  predicate DotAt(s: string, i: int)
  {
    0 <= i < |s| && s[i] == '.' && AllDigits(s[..i]) && AllDigits(s[i + 1..])
  }

  /** A left-to-right scan of the decimal pattern: `seenDot` records
      whether the optional '.' was consumed. */
  function ScanDecimal(s: string, seenDot: bool): bool
  {
    if |s| == 0 then true
    else if IsDigit(s[0]) then ScanDecimal(s[1..], seenDot)
    else if s[0] == '.' && !seenDot then ScanDecimal(s[1..], true)
    else false
  }

  lemma AllDigitsConcat(a: string, b: string)
    ensures AllDigits(a + b) <==> AllDigits(a) && AllDigits(b)
  {
    if AllDigits(a) && AllDigits(b) {
      forall k | 0 <= k < |a + b| ensures IsDigit((a + b)[k]) {
        if k >= |a| { assert (a + b)[k] == b[k - |a|]; }
      }
    }
    if AllDigits(a + b) {
      forall k | 0 <= k < |a| ensures IsDigit(a[k]) { assert a[k] == (a + b)[k]; }
      forall k | 0 <= k < |b| ensures IsDigit(b[k]) { assert b[k] == (a + b)[|a| + k]; }
    }
  }

  lemma AllDigitsCons(s: string)
    requires |s| > 0
    ensures AllDigits(s) <==> IsDigit(s[0]) && AllDigits(s[1..])
  {
    assert s == [s[0]] + s[1..];
    AllDigitsConcat([s[0]], s[1..]);
  }

  /** Digits, a '.', digits: the pattern's shape with the dot present. */
  lemma ShapeOf(a: string, b: string)
    requires AllDigits(a) && AllDigits(b)
    ensures DecimalShape(a + "." + b)
  {
    var r := a + "." + b;
    assert r[|a|] == '.' && r[..|a|] == a && r[|a| + 1..] == b;
    assert DotAt(r, |a|);
  }

  /** The digits before a witness dot. */
  lemma BeforeWitness(s: string, i: nat)
    requires i < |s| && AllDigits(s[..i])
    ensures forall k :: 0 <= k < i ==> IsDigit(s[k])
  {
    var p := s[..i];
    forall k | 0 <= k < i ensures IsDigit(s[k]) { assert s[k] == p[k]; }
  }

  /** A non-empty string of the pattern starts with a digit or a '.'. */
  lemma ShapeHead(s: string)
    requires DecimalShape(s) && |s| > 0
    ensures IsDigit(s[0]) || s[0] == '.'
  {
    if !AllDigits(s) {
      var i :| 0 <= i < |s| && DotAt(s, i);
      BeforeWitness(s, i);
    }
  }

  lemma ShapeDropDigit(s: string)
    requires |s| > 0 && IsDigit(s[0]) && DecimalShape(s)
    ensures DecimalShape(s[1..])
  {
    var t := s[1..];
    AllDigitsCons(s);
    if !AllDigits(s) {
      var i :| 0 <= i < |s| && DotAt(s, i);
      BeforeWitness(s, i);
      var a, b := s[..i], s[i + 1..];
      AllDigitsCons(a);
      assert a[1..] == t[..i - 1];
      assert t == a[1..] + "." + b;
      ShapeOf(a[1..], b);
    }
  }

  lemma ShapeAddDigit(s: string)
    requires |s| > 0 && IsDigit(s[0]) && DecimalShape(s[1..])
    ensures DecimalShape(s)
  {
    var t := s[1..];
    if AllDigits(t) {
      AllDigitsCons(s);
    } else {
      var i :| 0 <= i < |t| && DotAt(t, i);
      assert s[..i + 1] == [s[0]] + t[..i] && s[i + 2..] == t[i + 1..];
      assert AllDigits([s[0]]);
      AllDigitsConcat([s[0]], t[..i]);
      assert DotAt(s, i + 1);
    }
  }

  lemma ShapeDigitCons(s: string)
    requires |s| > 0 && IsDigit(s[0])
    ensures DecimalShape(s) <==> DecimalShape(s[1..])
  {
    if DecimalShape(s) {
      ShapeDropDigit(s);
    }
    if DecimalShape(s[1..]) {
      ShapeAddDigit(s);
    }
  }

  /** A string of the pattern without a '.' is all digits. */
  lemma DotlessShape(s: string)
    ensures DecimalShape(s) ==> AllDigits(s) || '.' in s
  {
    if DecimalShape(s) && !AllDigits(s) {
      var i :| 0 <= i < |s| && DotAt(s, i);
      assert s[i] in s;
    }
  }

  lemma ShapeDotCons(s: string)
    requires |s| > 0 && s[0] == '.'
    ensures DecimalShape(s) <==> AllDigits(s[1..])
  {
    AllDigitsCons(s);
    if AllDigits(s[1..]) {
      assert s == [] + "." + s[1..];
      ShapeOf([], s[1..]);
    }
    if DecimalShape(s) && !AllDigits(s) {
      var i :| 0 <= i < |s| && DotAt(s, i);
      BeforeWitness(s, i);
    }
  }

  lemma {:induction false} ScanAfterDot(s: string)
    ensures ScanDecimal(s, true) <==> AllDigits(s)
  {
    if |s| > 0 {
      ScanAfterDot(s[1..]);
      AllDigitsCons(s);
    }
  }

  /** The scan accepts exactly the strings of the decimal pattern. */
  lemma {:induction false} ScanMatchesShape(s: string)
    ensures ScanDecimal(s, false) <==> DecimalShape(s)
  {
    if |s| > 0 {
      if IsDigit(s[0]) {
        ScanMatchesShape(s[1..]);
        ShapeDigitCons(s);
      } else if s[0] == '.' {
        ScanAfterDot(s[1..]);
        ShapeDotCons(s);
      } else if DecimalShape(s) {
        ShapeHead(s);
      }
    }
  }

  function CountChar(s: string, c: char): nat
  {
    if |s| == 0 then 0 else (if s[0] == c then 1 else 0) + CountChar(s[1..], c)
  }

  lemma {:induction false} NoCharInDigits(s: string)
    requires AllDigits(s)
    ensures CountChar(s, '.') == 0
  {
    if |s| > 0 {
      assert AllDigits(s[1..]) by {
        forall k | 0 <= k < |s| - 1 ensures IsDigit(s[1..][k]) { assert s[1..][k] == s[k + 1]; }
      }
      NoCharInDigits(s[1..]);
    }
  }

  lemma {:induction false} CountConcat(a: string, b: string, c: char)
    ensures CountChar(a + b, c) == CountChar(a, c) + CountChar(b, c)
  {
    if |a| > 0 {
      assert (a + b)[0] == a[0];
      assert (a + b)[1..] == a[1..] + b;
      CountConcat(a[1..], b, c);
    } else {
      assert a + b == b;
    }
  }

  /** The pattern admits at most one '.'. */
  lemma AtMostOneDot(s: string)
    requires DecimalShape(s)
    ensures CountChar(s, '.') <= 1
  {
    if AllDigits(s) {
      NoCharInDigits(s);
    } else {
      var i :| 0 <= i < |s| && DotAt(s, i);
      assert s == s[..i] + ([s[i]] + s[i + 1..]);
      CountConcat(s[..i], [s[i]] + s[i + 1..], '.');
      CountConcat([s[i]], s[i + 1..], '.');
      NoCharInDigits(s[..i]);
      NoCharInDigits(s[i + 1..]);
    }
  }

  predicate Matches(s: string, allowDecimal: bool)
  {
    if allowDecimal then DecimalShape(s) else AllDigits(s)
  }

  /** `handleChange`: whether the new value is passed on to the caller. */
  function ForwardChange(value: string, allowDecimal: bool): (forwarded: bool)
    ensures forwarded ==> CountChar(value, '.') <= (if allowDecimal then 1 else 0)
    ensures forwarded <==> value == "" || Matches(value, allowDecimal)
  {
    if value == "" then true
    else if Matches(value, allowDecimal) then
      MatchedDots(value, allowDecimal);
      true
    else false
  }

  lemma MatchedDots(value: string, allowDecimal: bool)
    requires Matches(value, allowDecimal)
    ensures CountChar(value, '.') <= (if allowDecimal then 1 else 0)
  {
    if allowDecimal {
      AtMostOneDot(value);
    } else {
      NoCharInDigits(value);
    }
  }

  /** The keys that never carry a character. */
  const NavigationKeys: seq<string> := ["Backspace", "Delete", "ArrowLeft", "ArrowRight", "Tab", "Home", "End"]

  predicate IsDigitKey(key: string) { |key| == 1 && IsDigit(key[0]) }

  /** `handleKeyDown`: whether the key press ends up prevented, given
      whether the caller's own handler already prevented it. */
  function KeyPrevented(key: string, ctrlKey: bool, metaKey: bool, value: string, allowDecimal: bool,
                        callerPrevented: bool): (prevented: bool)
    ensures callerPrevented ==> prevented
    ensures !prevented && |key| == 1 && !ctrlKey && !metaKey ==> IsDigit(key[0]) || (key == "." && allowDecimal)
    ensures !prevented && key == "." ==> allowDecimal && '.' !in value
    ensures !callerPrevented && IsDigitKey(key) ==> !prevented
    ensures !callerPrevented && key == "." && allowDecimal && '.' !in value ==> !prevented
    ensures !callerPrevented && key in NavigationKeys ==> !prevented
    ensures !callerPrevented && (ctrlKey || metaKey) && key != "." ==> !prevented
    ensures !callerPrevented && |key| != 1 && key !in NavigationKeys && !ctrlKey && !metaKey ==> prevented
  {
    if callerPrevented then true
    else
      var isDecimalPoint := key == ".";
      var rejected := !IsDigitKey(key) && !(isDecimalPoint && allowDecimal) && key !in NavigationKeys && !(ctrlKey || metaKey);
      var secondDot := isDecimalPoint && ('.' in value || !allowDecimal);
      rejected || secondDot
  }

  /** `handlePaste`: a paste is stopped when the pasted text alone does not
      fit the pattern. */
  function PastePrevented(pasted: string, allowDecimal: bool, callerPrevented: bool): (prevented: bool)
    ensures callerPrevented ==> prevented
    ensures !callerPrevented ==> (prevented <==> !Matches(pasted, allowDecimal))
  {
    callerPrevented || !Matches(pasted, allowDecimal)
  }

  /** Only digits and '.' characters. */
  predicate NumericChars(s: string)
  {
    forall k :: 0 <= k < |s| ==> IsDigit(s[k]) || s[k] == '.'
  }

  lemma NumericTail(s: string)
    requires |s| > 0 && NumericChars(s)
    ensures NumericChars(s[1..])
  {
    forall k | 0 <= k < |s| - 1 ensures IsDigit(s[1..][k]) || s[1..][k] == '.' {
      assert s[1..][k] == s[k + 1];
    }
  }

  lemma {:induction false} DigitsFromNoDot(s: string)
    requires NumericChars(s) && CountChar(s, '.') == 0
    ensures AllDigits(s)
    decreases |s|
  {
    if |s| > 0 {
      NumericTail(s);
      DigitsFromNoDot(s[1..]);
      AllDigitsCons(s);
    }
  }

  lemma {:induction false} ShapeFromCount(s: string)
    requires NumericChars(s) && CountChar(s, '.') <= 1
    ensures DecimalShape(s)
    decreases |s|
  {
    if |s| == 0 {
      assert AllDigits(s);
    } else {
      NumericTail(s);
      if IsDigit(s[0]) {
        ShapeFromCount(s[1..]);
        ShapeDigitCons(s);
      } else {
        DigitsFromNoDot(s[1..]);
        ShapeDotCons(s);
      }
    }
  }

  lemma ShapeIsNumeric(s: string)
    requires DecimalShape(s)
    ensures NumericChars(s)
  {
    if !AllDigits(s) {
      var i :| 0 <= i < |s| && DotAt(s, i);
      forall k | 0 <= k < |s| ensures IsDigit(s[k]) || s[k] == '.' {
        if k < i {
          assert s[k] == s[..i][k];
        } else if k > i {
          assert s[k] == s[i + 1..][k - i - 1];
        }
      }
    }
  }

  /** The pattern, told character by character: only digits and '.',
      with at most one '.' when decimals are allowed and none otherwise. */
  lemma MatchesIffNumeric(s: string, allowDecimal: bool)
    ensures Matches(s, allowDecimal) <==> NumericChars(s) && CountChar(s, '.') <= (if allowDecimal then 1 else 0)
  {
    if Matches(s, allowDecimal) {
      MatchedDots(s, allowDecimal);
      if allowDecimal {
        ShapeIsNumeric(s);
      }
    }
    if NumericChars(s) && CountChar(s, '.') <= (if allowDecimal then 1 else 0) {
      if allowDecimal {
        ShapeFromCount(s);
      } else {
        DigitsFromNoDot(s);
      }
    }
  }

  /** A paste goes through exactly when the caller let it and the pasted
      text holds only digits and at most the one '.' the field allows. */
  lemma PasteLetsThroughNumbers(pasted: string, allowDecimal: bool, callerPrevented: bool)
    ensures !PastePrevented(pasted, allowDecimal, callerPrevented) <==>
      !callerPrevented && NumericChars(pasted) && CountChar(pasted, '.') <= (if allowDecimal then 1 else 0)
  {
    MatchesIffNumeric(pasted, allowDecimal);
  }

  lemma InsertIntoDigits(v: string, key: string, p: nat)
    requires AllDigits(v) && AllDigits(key) && p <= |v|
    ensures AllDigits(v[..p] + key + v[p..])
  {
    assert v == v[..p] + v[p..];
    AllDigitsConcat(v[..p], v[p..]);
    AllDigitsConcat(v[..p], key);
    AllDigitsConcat(v[..p] + key, v[p..]);
  }

  lemma InsertBeforeDot(a: string, b: string, key: string, caret: nat)
    requires AllDigits(a) && AllDigits(b) && AllDigits(key) && caret <= |a|
    ensures DecimalShape((a + "." + b)[..caret] + key + (a + "." + b)[caret..])
  {
    var v := a + "." + b;
    assert v[..caret] == a[..caret];
    assert v[caret..] == a[caret..] + "." + b;
    InsertIntoDigits(a, key, caret);
    assert v[..caret] + key + v[caret..] == (a[..caret] + key + a[caret..]) + "." + b;
    ShapeOf(a[..caret] + key + a[caret..], b);
  }

  lemma InsertAfterDot(a: string, b: string, key: string, c: nat)
    requires AllDigits(a) && AllDigits(b) && AllDigits(key) && c <= |b|
    ensures DecimalShape((a + "." + b)[..|a| + 1 + c] + key + (a + "." + b)[|a| + 1 + c..])
  {
    var v := a + "." + b;
    assert v[..|a| + 1 + c] == a + "." + b[..c];
    assert v[|a| + 1 + c..] == b[c..];
    InsertIntoDigits(b, key, c);
    assert v[..|a| + 1 + c] + key + v[|a| + 1 + c..] == a + "." + (b[..c] + key + b[c..]);
    ShapeOf(a, b[..c] + key + b[c..]);
  }

  /** A value of the pattern that is not all digits is digits, '.', digits. */
  lemma SplitAtDot(value: string) returns (a: string, b: string)
    requires DecimalShape(value) && !AllDigits(value)
    ensures value == a + "." + b && AllDigits(a) && AllDigits(b)
  {
    var i :| 0 <= i < |value| && DotAt(value, i);
    a, b := value[..i], value[i + 1..];
    assert value == a + "." + b;
  }

  /** A digit typed anywhere into a value of the pattern keeps it in the pattern. */
  lemma InsertDigitKeepsShape(value: string, key: string, caret: nat)
    requires DecimalShape(value) && AllDigits(key) && caret <= |value|
    ensures DecimalShape(value[..caret] + key + value[caret..])
  {
    if AllDigits(value) {
      InsertIntoDigits(value, key, caret);
    } else {
      var a, b := SplitAtDot(value);
      if caret <= |a| {
        InsertBeforeDot(a, b, key, caret);
      } else {
        InsertAfterDot(a, b, key, caret - |a| - 1);
      }
    }
  }

  /** A key the input lets through, typed at the caret, keeps a value of
      the pattern inside the pattern. */
  lemma AcceptedKeyKeepsShape(value: string, key: string, caret: nat, allowDecimal: bool)
    requires Matches(value, allowDecimal) && caret <= |value|
    requires !KeyPrevented(key, false, false, value, allowDecimal, false) && |key| == 1
    ensures Matches(value[..caret] + key + value[caret..], allowDecimal)
  {
    if IsDigit(key[0]) {
      assert AllDigits(key);
      if allowDecimal {
        InsertDigitKeepsShape(value, key, caret);
      } else {
        InsertIntoDigits(value, key, caret);
      }
    } else {
      assert key == "." && allowDecimal && '.' !in value;
      DotlessShape(value);
      assert value[..caret] + key + value[caret..] == value[..caret] + "." + value[caret..];
      assert value == value[..caret] + value[caret..];
      AllDigitsConcat(value[..caret], value[caret..]);
      ShapeOf(value[..caret], value[caret..]);
    }
  }
}
