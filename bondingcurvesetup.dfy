/** The `useBondingCurveSetup` hook: the bigint amounts it derives from the
    provider-token balance and the chosen percentage, and the status it
    moves through while approving the factory and deploying the curve. */
module BondingCurveSetup {
  import opened Wrappers
  import opened JsString
  import opened Decimal
  import opened EtherFormat

  const FixedSlope: nat := 100000000000000
  const FixedIntercept: nat := 10000000000000000
  /** Allowances within 10^25 wei of 2^256 - 1 are shown as unlimited. */
  const UnlimitedMargin: nat := 10000000000000000000000000

  /** The number of leading decimal digits. */
  function DigitCount(s: string): (k: nat)
    ensures k <= |s| && AllDigits(s[..k])
    ensures k < |s| ==> !IsDigit(s[k])
  {
    if |s| > 0 && IsDigit(s[0]) then
      var k := 1 + DigitCount(s[1..]);
      assert s[..k] == [s[0]] + s[1..][..k - 1];
      k
    else 0
  }

  predicate AllZeros(s: string)
  {
    forall i :: 0 <= i < |s| ==> s[i] == '0'
  }

  /** `BigInt(Number(percentage || "0"))`, with None where it throws: an
      optional sign, digits and an optional '.' with more digits make a
      number; anything else is NaN, and a number with a non-zero fraction
      is not an integer, and `BigInt` throws a RangeError on both. */
  function PercentValue(percentage: string): (r: Option<int>)
    ensures percentage == "" ==> r == Some(0)
    ensures r.Some? && percentage != "" ==>
      forall i :: 0 < i < |percentage| ==> IsDigit(percentage[i]) || percentage[i] == '.'
    ensures r.Some? && r.value < 0 ==> percentage[0] == '-'
  {
    if percentage == "" then
      EmptyPercentIsZero();
      Some(0)
    else
      var body := if percentage[0] == '-' || percentage[0] == '+' then percentage[1..] else percentage;
      var magnitude := ReadMagnitude(body);
      if magnitude.None? then None
      else
        ShapeAfterSign(percentage, body);
        Some(if percentage[0] == '-' then -(magnitude.value as int) else magnitude.value)
  }

  /** `percentage || "0"` reads the empty field as "0", which is 0. */
  lemma EmptyPercentIsZero()
    ensures ReadMagnitude("0") == Some(0)
  {
    ReadMagnitudeOfText("0", "");
    assert ParseDigits("0") == 0 by { assert "0"[..0] == ""; }
  }

  lemma ShapeAfterSign(t: string, body: string)
    requires t != "" && body == (if t[0] == '-' || t[0] == '+' then t[1..] else t)
    requires forall i :: 0 <= i < |body| ==> IsDigit(body[i]) || body[i] == '.'
    ensures forall i :: 0 < i < |t| ==> IsDigit(t[i]) || t[i] == '.'
  {
    if t[0] == '-' || t[0] == '+' {
      assert forall i :: 0 < i < |t| ==> t[i] == body[i - 1];
    }
  }

  /** The number after the sign: digits, then nothing or a '.' with more
      digits; None when that is not the shape, or the fraction is not all
      zeros. */
  function ReadMagnitude(body: string): (r: Option<nat>)
    ensures r.Some? ==> forall i :: 0 <= i < |body| ==> IsDigit(body[i]) || body[i] == '.'
  {
    var k := DigitCount(body);
    var tail := body[k..];
    if tail != "" && (tail[0] != '.' || !AllDigits(tail[1..])) then None
    else if k == 0 && |tail| <= 1 then None
    else if tail != "" && !AllZeros(tail[1..]) then None
    else
      AcceptedShape(body, k);
      Some(ParseDigits(body[..k]))
  }

  /** Digits, then nothing or a '.' followed by digits. */
  lemma AcceptedShape(body: string, k: nat)
    requires k == DigitCount(body)
    requires body[k..] == "" || (body[k..][0] == '.' && AllDigits(body[k..][1..]))
    ensures forall i :: 0 <= i < |body| ==> IsDigit(body[i]) || body[i] == '.'
  {
    forall i | 0 <= i < |body| ensures IsDigit(body[i]) || body[i] == '.' {
      if i < k {
        assert body[..k][i] == body[i];
      } else if i > k {
        assert body[k..][1..][i - k - 1] == body[i];
      } else {
        assert body[k..][0] == body[i];
      }
    }
  }

  lemma {:induction false} DigitCountStops(d: string, rest: string)
    requires AllDigits(d) && (rest == "" || !IsDigit(rest[0]))
    ensures DigitCount(d + rest) == |d|
    decreases |d|
  {
    if |d| > 0 {
      assert (d + rest)[1..] == d[1..] + rest;
      DigitCountStops(d[1..], rest);
    } else {
      assert d + rest == rest;
    }
  }

  /** Digits alone, or followed by '.' and zeros, read as their value. */
  lemma ReadMagnitudeOfText(d: string, zeros: string)
    requires AllDigits(d) && |d| > 0 && AllZeros(zeros)
    ensures ReadMagnitude(d) == Some(ParseDigits(d))
    ensures ReadMagnitude(d + "." + zeros) == Some(ParseDigits(d))
  {
    DigitCountStops(d, "");
    assert d + "" == d && d[..|d|] == d && d[|d|..] == "";
    var s := d + "." + zeros;
    DigitCountStops(d, "." + zeros);
    assert s == d + ("." + zeros);
    assert s[..|d|] == d && s[|d|..] == "." + zeros;
    assert ("." + zeros)[1..] == zeros;
  }

  /** Digits, '.' and a fraction with a non-zero digit read as nothing. */
  lemma ReadMagnitudeOfFraction(d: string, fraction: string)
    requires AllDigits(d) && |d| > 0 && AllDigits(fraction) && !AllZeros(fraction)
    ensures ReadMagnitude(d + "." + fraction).None?
  {
    var s := d + "." + fraction;
    DigitCountStops(d, "." + fraction);
    assert s == d + ("." + fraction);
    assert s[|d|..] == "." + fraction;
    assert ("." + fraction)[1..] == fraction;
  }

  /** The text after the sign of an integer's decimal text, and that text
      with anything appended, is read from the digits. */
  lemma SignSplit(n: int, rest: string)
    ensures var d := NatToString(if n < 0 then -n else n);
      var t := IntToString(n) + rest;
      t != "" && (t[0] == '-' <==> n < 0) && t[0] != '+'
      && (if t[0] == '-' || t[0] == '+' then t[1..] else t) == d + rest
  {
    var d := NatToString(if n < 0 then -n else n);
    assert IsDigit(d[0]);
    if n < 0 {
      assert IntToString(n) + rest == "-" + (d + rest);
      assert ("-" + (d + rest))[1..] == d + rest;
    }
  }

  /** An integer's decimal text followed by `rest` reads as the magnitude
      text followed by `rest`, negated under a '-' sign. */
  lemma {:induction false} PercentReadsSign(n: int, rest: string)
    ensures var m := ReadMagnitude(NatToString(if n < 0 then -n else n) + rest);
      PercentValue(IntToString(n) + rest) == if m.None? then None else Some(if n < 0 then -(m.value as int) else m.value)
  {
    SignSplit(n, rest);
  }

  /** The decimal text of every integer, with or without a '.' followed by
      zeros ("12", "-5", "12.", "12.00"), reads as that integer. */
  lemma {:induction false} PercentOfIntegerText(n: int, zeros: string)
    requires AllZeros(zeros)
    ensures PercentValue(IntToString(n)) == Some(n)
    ensures PercentValue(IntToString(n) + "." + zeros) == Some(n)
  {
    PercentOfIntegerTextWith(n, "", "");
    assert IntToString(n) + "" == IntToString(n);
    PercentOfIntegerTextWith(n, zeros, "." + zeros);
    assert IntToString(n) + ("." + zeros) == IntToString(n) + "." + zeros;
  }

  lemma {:induction false} PercentOfIntegerTextWith(n: int, zeros: string, rest: string)
    requires AllZeros(zeros) && (rest == "" || rest == "." + zeros)
    ensures PercentValue(IntToString(n) + rest) == Some(n)
  {
    MagnitudeOfIntegerText(if n < 0 then -n else n, zeros, rest);
    PercentReadsSign(n, rest);
  }

  lemma MagnitudeOfIntegerText(k: nat, zeros: string, rest: string)
    requires AllZeros(zeros) && (rest == "" || rest == "." + zeros)
    ensures ReadMagnitude(NatToString(k) + rest) == Some(k)
  {
    var d := NatToString(k);
    ParseNatToString(k);
    ReadMagnitudeOfText(d, zeros);
    if rest == "" {
      assert d + rest == d;
    } else {
      assert d + rest == d + "." + zeros;
    }
  }

  /** A decimal whose fraction has a non-zero digit ("12.5", "-3.05") is
      not an integer, and `BigInt` throws. */
  lemma {:induction false} PercentFractionThrows(n: int, fraction: string)
    requires AllDigits(fraction) && !AllZeros(fraction)
    ensures PercentValue(IntToString(n) + "." + fraction).None?
  {
    var d := NatToString(if n < 0 then -n else n);
    ReadMagnitudeOfFraction(d, fraction);
    PercentReadsSign(n, "." + fraction);
    assert IntToString(n) + ("." + fraction) == IntToString(n) + "." + fraction;
    assert d + ("." + fraction) == d + "." + fraction;
  }

  /** BigInt division, which truncates toward zero. */
  function TruncDiv(a: int, d: nat): (q: int)
    requires d > 0
    ensures a >= 0 ==> q >= 0 && q * d <= a < (q + 1) * d
    ensures a < 0 ==> q <= 0 && -q * d <= -a < (-q + 1) * d
  {
    if a >= 0 then DivBounds(a, d); a / d
    else DivBounds(-a, d); -((-a) / d)
  }

  lemma DivBounds(a: nat, d: nat)
    requires d > 0
    ensures a / d >= 0 && (a / d) * d <= a < (a / d + 1) * d
  {
    var q, m := a / d, a % d;
    assert a == q * d + m && 0 <= m < d;
    assert (q + 1) * d == q * d + d;
  }

  /** `(tokenBalance * BigInt(pct)) / BigInt(100)`: pct percent of the
      balance, truncated toward zero, which for a negative percentage is a
      negative amount. */
  function InitialAmount(balance: nat, pct: int): (r: int)
    ensures pct >= 0 ==> r >= 0 && r * 100 <= balance * pct < (r + 1) * 100
    ensures pct < 0 ==> r <= 0 && -r * 100 <= balance * -pct < (-r + 1) * 100
    ensures 0 <= pct <= 100 ==> r <= balance
  {
    TruncDiv(balance * pct, 100)
  }

  /** The approval amount: the initial amount plus a 5 % buffer, itself
      truncated. */
  function BufferedAmount(amount: int): (r: int)
    ensures amount >= 0 ==> amount <= r && (r - amount) * 100 <= amount * 5 < (r - amount + 1) * 100
    ensures amount < 0 ==> r <= amount
  {
    amount + TruncDiv(amount * 5, 100)
  }

  /** `allowanceEnough`. */
  predicate AllowanceEnough(allowance: nat, balance: nat, pct: int)
  {
    allowance >= InitialAmount(balance, pct)
  }

  /** `formatEther(v).split(".")[0]`. */
  function WholeEthers(v: nat): string
  {
    Split(FormatEther(v), ".")[0]
  }

  /** The displayed whole part is the decimal text of `v div 10^18`. */
  lemma WholeEthersIsDiv(v: nat)
    ensures WholeEthers(v) == NatToString(v / WeiPerEther)
  {
    IntegerPart(v);
    QuotIsDiv(v, EtherDecimals);
    WeiPerEtherIsPow10();
  }

  /** `allowanceDisplay`. */
  function AllowanceDisplay(allowance: nat): string
  {
    if allowance > MaxUint256 - UnlimitedMargin then "Unlimited" else WholeEthers(allowance)
  }

  /** "Unlimited" is shown exactly for allowances above the threshold;
      below it the whole ethers are shown. */
  lemma AllowanceDisplayMeaning(allowance: nat)
    ensures AllowanceDisplay(allowance) == "Unlimited" <==> allowance > MaxUint256 - UnlimitedMargin
    ensures allowance <= MaxUint256 - UnlimitedMargin ==> AllowanceDisplay(allowance) == NatToString(allowance / WeiPerEther)
  {
    WholeEthersIsDiv(allowance);
    if allowance <= MaxUint256 - UnlimitedMargin {
      var s := NatToString(allowance / WeiPerEther);
      assert IsDigit(s[0]);
      assert s[0] != "Unlimited"[0];
    }
  }

  datatype Action = IdleAction | Approve | Deploy

  datatype Status = Idle | Fetching | NeedsApproval | Approving | Approved | Deploying | Success | Error

  /** The arguments of `deployBondingCurveContract`. */
  datatype DeployCall = DeployCall(providerToken: string, initialTokenAmount: int, slope: nat, intercept: nat)

  class Setup {
    var providerToken: Option<string>
    /** The text of the percentage field. */
    var percentage: string
    var tokenBalance: nat
    var allowance: nat
    var existingBondingCurve: Option<string>
    var bondingCurveAddress: Option<string>
    var checkingExistence: bool
    var currentAction: Action
    var status: Status
    var txHash: Option<string>

    constructor ()
      ensures providerToken.None? && percentage == "50" && tokenBalance == 0 && allowance == 0
      ensures existingBondingCurve.None? && bondingCurveAddress.None? && !checkingExistence
      ensures currentAction == IdleAction && status == Idle && txHash.None?
    {
      providerToken := None;
      percentage := "50";
      tokenBalance := 0;
      allowance := 0;
      existingBondingCurve := None;
      bondingCurveAddress := None;
      checkingExistence := false;
      currentAction := IdleAction;
      status := Idle;
      txHash := None;
    }

    /** `setPercentage`, from the number field. */
    method SetPercentage(text: string)
      modifies this`percentage
      ensures percentage == text
    {
      percentage := text;
    }

    /** The existence check. `ready` says whether the wallet, the client,
        a successful deployment and its provider contract are all there;
        `tokenRead` is what `getProviderToken` returned ("" for a falsy
        address, None when the read threw) and `curveSearch` what
        `findBondingCurveForProviderToken` returned ("" for null; it catches
        its own failures, so it never throws). A curve found takes the hook
        to "success"; a token alone is stored for the balance and allowance
        reads; a failed token read changes nothing. */
    method OnExistenceCheck(ready: bool, tokenRead: Option<string>, curveSearch: string)
      modifies this`providerToken, this`existingBondingCurve, this`bondingCurveAddress, this`status,
        this`checkingExistence
      ensures !ready ==> checkingExistence == old(checkingExistence)
      ensures ready ==> !checkingExistence
      ensures ready && tokenRead.Some? && tokenRead.value != "" && curveSearch != "" ==>
        (existingBondingCurve == Some(curveSearch) && bondingCurveAddress == Some(curveSearch)
          && providerToken == tokenRead && status == Success)
      ensures ready && tokenRead.Some? && tokenRead.value != "" && curveSearch == "" ==>
        (providerToken == tokenRead && existingBondingCurve == old(existingBondingCurve)
          && bondingCurveAddress == old(bondingCurveAddress) && status == old(status))
      ensures !ready || tokenRead.None? || tokenRead == Some("") ==>
        (providerToken == old(providerToken) && existingBondingCurve == old(existingBondingCurve)
          && bondingCurveAddress == old(bondingCurveAddress) && status == old(status))
    {
      if !ready {
        return;
      }
      checkingExistence := true;
      if tokenRead.Some? && tokenRead.value != "" {
        if curveSearch != "" {
          existingBondingCurve := Some(curveSearch);
          bondingCurveAddress := Some(curveSearch);
          providerToken := tokenRead;
          status := Success;
        } else {
          providerToken := tokenRead;
        }
      }
      checkingExistence := false;
    }

    /** The balance read once a provider token is set; `ready` says
        whether the wallet and the client are there, and None is a read
        that threw, which leaves the balance alone. */
    method OnBalance(ready: bool, read: Option<nat>)
      modifies this`tokenBalance
      ensures tokenBalance == if ready && providerToken.Some? && read.Some? then read.value else old(tokenBalance)
    {
      if !ready || providerToken.None? {
        return;
      }
      if read.Some? {
        tokenBalance := read.value;
      }
    }

    /** The allowance read when the token or the hash changes. None is a
        read that failed: `getTokenAllowance` catches it and answers 0, and
        the effect stores that 0, which shows the approval step again. */
    method OnAllowance(ready: bool, read: Option<nat>)
      modifies this`allowance
      ensures allowance == if ready && providerToken.Some? then (if read.Some? then read.value else 0) else old(allowance)
    {
      if !ready || providerToken.None? {
        return;
      }
      allowance := if read.Some? then read.value else 0;
    }

    /** `refreshAllowance`, run two seconds after an approval: the same
        read as the allowance effect, so a failed read also stores 0. */
    method RefreshAllowance(ready: bool, read: Option<nat>)
      modifies this`allowance
      ensures allowance == if ready && providerToken.Some? then (if read.Some? then read.value else 0) else old(allowance)
    {
      OnAllowance(ready, read);
    }

    /** The effect on a new write hash: record it and move to the waiting
        status of the current action. */
    method OnWriteData(writeData: Option<string>)
      modifies this`txHash, this`status
      ensures writeData.None? ==> txHash == old(txHash) && status == old(status)
      ensures writeData.Some? ==> txHash == writeData
      ensures writeData.Some? ==> status == match currentAction
        case Approve => Approving
        case Deploy => Deploying
        case IdleAction => old(status)
    {
      if writeData.Some? {
        txHash := writeData;
        if currentAction == Approve { status := Approving; }
        if currentAction == Deploy { status := Deploying; }
      }
    }

    /** The effect on a write error. */
    method OnWriteError(hasError: bool)
      modifies this`status
      ensures status == if hasError then Error else old(status)
    {
      if hasError { status := Error; }
    }

    /** The effect on a receipt (None while there is none): success under
        approve or deploy ends that action's flow, a revert is an error
        whatever the action. */
    method OnReceipt(receiptSuccess: Option<bool>)
      modifies this`status
      ensures receiptSuccess.None? ==> status == old(status)
      ensures receiptSuccess == Some(false) ==> status == Error
      ensures receiptSuccess == Some(true) ==> status == match currentAction
        case Approve => Approved
        case Deploy => Success
        case IdleAction => old(status)
    {
      if receiptSuccess.Some? {
        if receiptSuccess.value {
          if currentAction == Approve {
            status := Approved;
          } else if currentAction == Deploy {
            status := Success;
          }
        } else {
          status := Error;
        }
      }
    }

    /** The timer after a successful deploy: the hash gets a "-recheck"
        suffix so that the allowance effect runs again. */
    method RecheckTxHash()
      modifies this`txHash
      ensures txHash == if old(txHash).Some? then Some(old(txHash).value + "-recheck") else None
    {
      if txHash.Some? {
        txHash := Some(txHash.value + "-recheck");
      }
    }

    /** `handleApprove`: no-op without a provider token; `threw` when
        `BigInt` rejects the percentage, before anything changes; otherwise
        the action becomes approve and the buffered amount is sent for
        approval. */
    method HandleApprove() returns (approved: Option<int>, threw: bool)
      modifies this`currentAction
      ensures providerToken.None? ==> approved.None? && !threw && currentAction == old(currentAction)
      ensures providerToken.Some? && PercentValue(percentage).None? ==>
        approved.None? && threw && currentAction == old(currentAction)
      ensures providerToken.Some? && PercentValue(percentage).Some? ==> (!threw
        && approved == Some(BufferedAmount(InitialAmount(tokenBalance, PercentValue(percentage).value)))
        && currentAction == Approve)
    {
      if providerToken.None? {
        return None, false;
      }
      var pct := PercentValue(percentage);
      if pct.None? {
        return None, true;
      }
      var amountToApprove := TruncDiv(tokenBalance * pct.value, 100);
      var bufferedAmount := amountToApprove + TruncDiv(amountToApprove * 5, 100);
      currentAction := Approve;
      approved, threw := Some(bufferedAmount), false;
    }

    /** `handleDeploy`: no-op without a provider token; `threw` when
        `BigInt` rejects the percentage; otherwise the action becomes deploy
        and the curve is deployed with the fixed slope and intercept. */
    method HandleDeploy() returns (call: Option<DeployCall>, threw: bool)
      modifies this`currentAction
      ensures providerToken.None? ==> call.None? && !threw && currentAction == old(currentAction)
      ensures providerToken.Some? && PercentValue(percentage).None? ==>
        call.None? && threw && currentAction == old(currentAction)
      ensures providerToken.Some? && PercentValue(percentage).Some? ==> (!threw && currentAction == Deploy
        && call == Some(DeployCall(providerToken.value, InitialAmount(tokenBalance, PercentValue(percentage).value),
          FixedSlope, FixedIntercept)))
    {
      if providerToken.None? {
        return None, false;
      }
      var pct := PercentValue(percentage);
      if pct.None? {
        return None, true;
      }
      var initialTokenAmount := TruncDiv(tokenBalance * pct.value, 100);
      currentAction := Deploy;
      call, threw := Some(DeployCall(providerToken.value, initialTokenAmount, FixedSlope, FixedIntercept)), false;
    }
  }

  /** An allowance granted by approving the buffered amount for one
      balance and percentage passes `allowanceEnough` for a deploy at any
      balance and any percentage that are no larger: a balance that shrank
      or a percentage lowered after the approval needs no new approval. */
  lemma ApprovalCoversDeploy(balance: nat, pct: int, granted: nat, balance2: nat, pct2: int)
    requires granted >= BufferedAmount(InitialAmount(balance, pct))
    requires balance2 <= balance && pct2 <= pct
    ensures AllowanceEnough(granted, balance2, pct2)
  {
    var want := InitialAmount(balance2, pct2);
    if pct2 >= 0 {
      var have := InitialAmount(balance, pct);
      assert balance2 * pct2 <= balance * pct2 <= balance * pct by {
        MulMonotone(balance2, balance, pct2);
        MulMonotone(pct2, pct, balance);
      }
      assert want * 100 <= balance2 * pct2 && balance * pct < (have + 1) * 100;
      assert want <= have;
    }
  }

  lemma MulMonotone(a: int, b: int, c: nat)
    requires a <= b
    ensures a * c <= b * c
  {
    assert b * c - a * c == (b - a) * c;
  }
}
