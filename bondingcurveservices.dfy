/** The bonding-curve read helpers: the zero-address filters on the
    factory and curve reads, the two-decimal amount display, the first-match
    search for a provider token's curve, and the sellable-amount cap. */
module BondingCurveServices {
  import opened Wrappers
  import opened JsString
  import opened Decimal
  import opened EtherFormat
  import opened Address

  /** `getBondingCurveContract`: the factory's curve for a provider
      contract, with the zero address meaning "no curve". */
  function GetBondingCurveContract(read: AddressRead): (r: Option<string>)
    ensures r.Some? <==> read.Returned? && read.address != ZeroAddress
    ensures r.Some? ==> r.value == read.address
  {
    NullIfZero(read)
  }

  /** `getProviderTokenAddressFromBondingCurve`: the curve's provider token,
      with the zero address meaning "none". */
  function GetProviderTokenAddressFromBondingCurve(read: AddressRead): (r: Option<string>)
    ensures r.Some? <==> read.Returned? && read.address != ZeroAddress
    ensures r.Some? ==> r.value == read.address
  {
    GetBondingCurveContract(read)
  }

  /** `formatAmount`: `formatEther`, cut to at most two fractional
      characters when it has a fractional part. */
  function FormatAmount(amount: int): string
  {
    var amountStr := FormatEther(amount);
    var parts := Split(amountStr, ".");
    if |parts| == 2 then parts[0] + "." + Prefix(parts[1], 2) else amountStr
  }

  /** `formatAmount` truncates and never rounds: it is a prefix of
      `formatEther`, keeps the sign and the whole ethers, and shows at most
      the first two fractional digits; an amount with no fractional part is
      shown exactly as `formatEther` shows it. */
  lemma FormatAmountTruncates(amount: int)
    ensures FormatAmount(amount) <= FormatEther(amount)
    ensures var f := FractionDigits(amount, EtherDecimals);
      FormatAmount(amount) == Sign(amount) + NatToString(Quot(Abs(amount), EtherDecimals))
        + (if f == "" then "" else "." + Prefix(f, 2))
    ensures FractionDigits(amount, EtherDecimals) == "" ==> FormatAmount(amount) == FormatEther(amount)
  {
    var whole := Sign(amount) + NatToString(Quot(Abs(amount), EtherDecimals));
    var f := FractionDigits(amount, EtherDecimals);
    FormatUnitsParts(amount, EtherDecimals);
    assert FormatEther(amount) == whole + (if f == "" then "" else "." + f);
    DigitsHaveNoDot(NatToString(Quot(Abs(amount), EtherDecimals)));
    DigitsHaveNoDot(f);
    TruncateParts(whole, f);
  }

  /** Cutting `whole.f` at the '.' and keeping two fractional characters,
      when neither part holds a '.'. */
  lemma TruncateParts(whole: string, f: string)
    requires '.' !in whole && '.' !in f
    ensures var s := whole + (if f == "" then "" else "." + f);
      var parts := Split(s, ".");
      (if |parts| == 2 then parts[0] + "." + Prefix(parts[1], 2) else s) == whole + (if f == "" then "" else "." + Prefix(f, 2))
    ensures whole + (if f == "" then "" else "." + Prefix(f, 2)) <= whole + (if f == "" then "" else "." + f)
  {
    SplitUnits(whole, f);
    if f != "" {
      assert whole + "." + Prefix(f, 2) <= whole + "." + f;
    }
  }

  /** The outcome of one `providerTokenAddress` call inside the multicall
      (`allowFailure: true`). */
  datatype CallResult = Success(token: string) | Failure

  /** The loop reaches index `i` and looks at `results[i]`: a success whose
      token equals the target ignoring case is a match. */
  predicate MatchesAt(results: seq<CallResult>, i: nat, target: string)
  {
    i < |results| && results[i].Success? && EqualsIgnoreCase(results[i].token, target)
  }

  /** The loop from index `i` on: the first matching curve, skipping failed
      calls; reading past the end of `results` throws, which the caller's
      catch turns into null. */
  function FirstMatchFrom(curves: seq<string>, results: seq<CallResult>, target: string, i: nat): Option<string>
    decreases |curves| - i
  {
    if i >= |curves| then None
    else if i >= |results| then None
    else if MatchesAt(results, i, target) then Some(curves[i])
    else FirstMatchFrom(curves, results, target, i + 1)
  }

  /** `findBondingCurveForProviderToken`. `curves` is the factory's list
      for the wallet and `results` the multicall outcome; `Err` stands for a
      thrown read. */
  method FindBondingCurveForProviderToken(hasClient: bool, curves: Result<seq<string>>,
                                          results: Result<seq<CallResult>>, target: string)
    returns (found: Option<string>)
    ensures !hasClient || curves.Err? || (curves.Ok? && curves.value == []) || results.Err? ==> found == None
    ensures hasClient && curves.Ok? && results.Ok? ==> found == FirstMatchFrom(curves.value, results.value, target, 0)
  {
    if !hasClient {
      return None;
    }
    if curves.Err? || curves.value == [] {
      return None;
    }
    if results.Err? {
      return None;
    }
    var cs, rs := curves.value, results.value;
    var i := 0;
    while i < |cs|
      invariant 0 <= i <= |cs|
      invariant FirstMatchFrom(cs, rs, target, i) == FirstMatchFrom(cs, rs, target, 0)
    {
      if i >= |rs| {
        return None;
      }
      var result := rs[i];
      if result.Success? {
        if ToLower(result.token) == ToLower(target) {
          return Some(cs[i]);
        }
      }
      i := i + 1;
    }
    return None;
  }

  /** A curve found is a curve of the list: the first one whose call
      succeeded with the target token, every earlier call having failed or
      named another token. */
  lemma {:induction false} FirstMatchSound(curves: seq<string>, results: seq<CallResult>, target: string, i: nat)
    requires FirstMatchFrom(curves, results, target, i).Some?
    ensures exists k :: (i <= k < |curves| && MatchesAt(results, k, target)
      && curves[k] == FirstMatchFrom(curves, results, target, i).value
      && forall j :: i <= j < k ==> !MatchesAt(results, j, target))
    decreases |curves| - i
  {
    if !MatchesAt(results, i, target) {
      FirstMatchSound(curves, results, target, i + 1);
    }
  }

  /** When every curve has a call result, a matching curve is always found. */
  lemma {:induction false} FirstMatchComplete(curves: seq<string>, results: seq<CallResult>, target: string, i: nat, k: nat)
    requires |results| >= |curves| && i <= k < |curves| && MatchesAt(results, k, target)
    ensures FirstMatchFrom(curves, results, target, i).Some?
    decreases k - i
  {
    if !MatchesAt(results, i, target) {
      FirstMatchComplete(curves, results, target, i + 1, k);
    }
  }

  /** `getMaxSellableAmount`: the contract's value capped by the user's
      balance; 0 without a client or when the read throws. The available
      liquidity argument is not consulted. */
  function GetMaxSellableAmount(hasClient: bool, maxSellable: Result<int>, availableLiquidity: int, userBalance: int): (r: int)
    ensures !hasClient || maxSellable.Err? ==> r == 0
    ensures hasClient && maxSellable.Ok? ==>
      r <= userBalance && r <= maxSellable.value && (r == userBalance || r == maxSellable.value)
  {
    if !hasClient then 0
    else match maxSellable
      case Err(_) => 0
      case Ok(result) => if result > userBalance then userBalance else result
  }

  /** `getCurrentPrice`: the curve's price in ether as `formatEther` writes
      it, or "0" without a client or when the read throws. */
  function GetCurrentPrice(hasClient: bool, price: Result<int>): (r: string)
    ensures !hasClient || price.Err? ==> r == "0"
    ensures hasClient && price.Ok? ==> r == FormatEther(price.value)
  {
    if !hasClient then "0"
    else match price
      case Err(_) => "0"
      case Ok(p) => FormatEther(p)
  }
}
