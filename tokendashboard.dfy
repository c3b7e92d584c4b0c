/** The `useTokenDashboard` hook: allowance caching in local storage, the
    chart timeframe fallback, the trade-amount estimates and the buy, sell
    and approve state updates. */
module TokenDashboard {
  import opened Wrappers
  import opened JsString
  import opened EtherFormat

  datatype Side = Buy | Sell

  /** The local-storage key under which an allowance of `token` for
      `curve` by `wallet` is remembered. */
  function AllowanceKey(side: Side, token: string, wallet: string, curve: string): (k: string)
    ensures side == Buy ==> StartsWith(k, "buyAllowance-")
    ensures side == Sell ==> StartsWith(k, "sellAllowance-")
  {
    (if side == Buy then "buyAllowance-" else "sellAllowance-") + token + "-" + wallet + "-" + curve
  }

  /** A buy entry and a sell entry never share a key. */
  lemma SidesNeverShareKey(t1: string, w1: string, c1: string, t2: string, w2: string, c2: string)
    ensures AllowanceKey(Buy, t1, w1, c1) != AllowanceKey(Sell, t2, w2, c2)
  {
    assert AllowanceKey(Buy, t1, w1, c1)[0] == 'b';
    assert AllowanceKey(Sell, t2, w2, c2)[0] == 's';
  }

  datatype TradingState = TradingState(
    amount: string,
    estimatedCost: string,
    isApproving: bool,
    isProcessing: bool,
    hasAllowance: bool)

  const InitialTrading := TradingState("", "0", false, false, false)

  datatype SuccessInfo = SuccessInfo(message: string, txHash: string)

  /** The curve's price and supply as formatted text, and its cordex token. */
  datatype CurveInfo = CurveInfo(currentPrice: string, tokenSupply: string, cordexTokenAddress: Option<string>)

  const InitialCurveInfo := CurveInfo("0", "0", None)

  /** The outcome of a write that waits for its receipt. */
  datatype TxOutcome = Confirmed(txHash: string) | NotConfirmed | Threw

  /** The timeframe kept after the available list arrives: the current one
      when it is offered (or nothing is offered), else the first offered. */
  function ChooseTimeframe(current: string, timeframes: seq<string>): (r: string)
    ensures |timeframes| == 0 || current in timeframes ==> r == current
    ensures |timeframes| > 0 ==> r in timeframes
  {
    if |timeframes| > 0 && current !in timeframes then timeframes[0] else current
  }

  /** `symbol?.toLowerCase() || "tokens"`. */
  function TokenWord(symbol: Option<string>): (r: string)
    ensures r != ""
    ensures symbol.Some? && symbol.value != "" ==> r == ToLower(symbol.value)
  {
    if symbol.Some? && symbol.value != "" then ToLower(symbol.value) else "tokens"
  }

  /** Whether a trade event's user is this wallet, ignoring case. */
  predicate TradeIsMine(user: Option<string>, wallet: Option<string>)
  {
    user.Some? && user.value != "" && wallet.Some? && wallet.value != "" && ToLower(user.value) == ToLower(wallet.value)
  }

  lemma TradeIsMineSymmetric(user: string, wallet: string)
    ensures TradeIsMine(Some(user), Some(wallet)) <==> TradeIsMine(Some(wallet), Some(user))
  {
  }

  datatype Candle = Candle(time: int, open: string, high: string, low: string, close: string, volume: string)

  /** `map.set(key, 'true')` when `write` holds. */
  function Remember(storage: map<string, string>, key: string, write: bool): map<string, string>
  {
    if write then storage[key := "true"] else storage
  }

  class Dashboard {
    /** The allowance entries of local storage. */
    var storage: map<string, string>
    var buyState: TradingState
    var sellState: TradingState
    var error: Option<string>
    var successInfo: Option<SuccessInfo>
    var chartData: seq<Candle>
    var chartTimeframe: string
    var availableTimeframes: seq<string>
    var isChartLoading: bool
    var curveInfo: CurveInfo
    /** `tokenInfo.balance`: the formatted balance, null until read. */
    var tokenBalance: Option<string>

    /** Local storage only ever remembers granted allowances, never a refusal. */
    ghost predicate Valid()
      reads this
    {
      forall k :: k in storage ==> storage[k] == "true"
    }

    function StateOf(side: Side): TradingState
      reads this
    {
      if side == Buy then buyState else sellState
    }

    constructor (stored: map<string, string>)
      requires forall k :: k in stored ==> stored[k] == "true"
      ensures Valid() && storage == stored
      ensures buyState == InitialTrading && sellState == InitialTrading && error.None? && successInfo.None?
      ensures chartData == [] && chartTimeframe == "1h" && availableTimeframes == ["1h"] && !isChartLoading
      ensures curveInfo == InitialCurveInfo && tokenBalance.None?
    {
      storage := stored;
      buyState := InitialTrading;
      sellState := InitialTrading;
      error := None;
      successInfo := None;
      chartData := [];
      chartTimeframe := "1h";
      availableTimeframes := ["1h"];
      isChartLoading := false;
      curveInfo := InitialCurveInfo;
      tokenBalance := None;
    }

    method SetState(side: Side, s: TradingState)
      modifies this`buyState, this`sellState
      ensures StateOf(side) == s
      ensures side == Buy ==> sellState == old(sellState)
      ensures side == Sell ==> buyState == old(buyState)
    {
      if side == Buy {
        buyState := s;
      } else {
        sellState := s;
      }
    }

    /** One side of `checkAndUpdateAllowances`: a cached 'true' grants the
        allowance without a read; otherwise `allowance` is read and the key is
        written only when it is positive. Returns whether the read was made. */
    method CheckSide(side: Side, token: string, wallet: string, curve: string, allowance: nat) returns (read: bool)
      requires Valid()
      modifies this`storage, this`buyState, this`sellState
      ensures Valid()
      ensures var key := AllowanceKey(side, token, wallet, curve);
        var cached := key in old(storage) && old(storage)[key] == "true";
        (token == "" ==> !read && StateOf(side) == old(StateOf(side)) && storage == old(storage))
        && (token != "" && cached ==> (!read && StateOf(side) == old(StateOf(side)).(hasAllowance := true)
          && storage == old(storage)))
        && (token != "" && !cached ==> (read && StateOf(side) == old(StateOf(side)).(hasAllowance := allowance > 0)
          && storage == Remember(old(storage), key, allowance > 0)))
      ensures side == Buy ==> sellState == old(sellState)
      ensures side == Sell ==> buyState == old(buyState)
    {
      read := false;
      if token != "" {
        var key := AllowanceKey(side, token, wallet, curve);
        if key in storage && storage[key] == "true" {
          SetState(side, StateOf(side).(hasAllowance := true));
        } else {
          read := true;
          var hasAllowance := allowance > 0;
          SetState(side, StateOf(side).(hasAllowance := hasAllowance));
          if hasAllowance {
            storage := storage[key := "true"];
          }
        }
      }
    }

    /** The state after both sides were checked, from `storage0`, `buy0`
        and `sell0`: a side is read exactly when it has a token and no cached
        'true'; a cached side is granted, a read side is granted iff its
        allowance is positive, and only a positive read is remembered. */
    ghost predicate AllowancesChecked(storage0: map<string, string>, buy0: TradingState, sell0: TradingState,
      wallet: string, curve: string, cordexToken: string, providerToken: string,
      cordexAllowance: nat, providerAllowance: nat, buyRead: bool, sellRead: bool)
      reads this
    {
      var buyKey := AllowanceKey(Buy, cordexToken, wallet, curve);
      var sellKey := AllowanceKey(Sell, providerToken, wallet, curve);
      (buyRead <==> cordexToken != "" && !(buyKey in storage0 && storage0[buyKey] == "true"))
      && (sellRead <==> providerToken != "" && !(sellKey in storage0 && storage0[sellKey] == "true"))
      && buyState == (if cordexToken == "" then buy0 else buy0.(hasAllowance := !buyRead || cordexAllowance > 0))
      && sellState == (if providerToken == "" then sell0 else sell0.(hasAllowance := !sellRead || providerAllowance > 0))
      && storage == Remember(Remember(storage0, buyKey, buyRead && cordexAllowance > 0),
        sellKey, sellRead && providerAllowance > 0)
    }

    /** `checkAndUpdateAllowances`, with the two allowance reads as inputs
        and the reads actually made as outputs. */
    method CheckAndUpdateAllowances(hasClient: bool, wallet: string, curve: string, cordexToken: string,
      providerToken: string, cordexAllowance: nat, providerAllowance: nat) returns (buyRead: bool, sellRead: bool)
      requires Valid()
      modifies this`storage, this`buyState, this`sellState
      ensures Valid()
      ensures !hasClient || wallet == "" || curve == "" ==>
        !buyRead && !sellRead && storage == old(storage) && buyState == old(buyState) && sellState == old(sellState)
      ensures hasClient && wallet != "" && curve != "" ==>
        AllowancesChecked(old(storage), old(buyState), old(sellState), wallet, curve, cordexToken, providerToken,
          cordexAllowance, providerAllowance, buyRead, sellRead)
    {
      buyRead, sellRead := false, false;
      if !hasClient || wallet == "" || curve == "" {
        return;
      }
      var sellKey := AllowanceKey(Sell, providerToken, wallet, curve);
      ghost var sellCachedBefore := sellKey in storage && storage[sellKey] == "true";
      buyRead := CheckSide(Buy, cordexToken, wallet, curve, cordexAllowance);
      SidesNeverShareKey(cordexToken, wallet, curve, providerToken, wallet, curve);
      assert (sellKey in storage && storage[sellKey] == "true") == sellCachedBefore;
      sellRead := CheckSide(Sell, providerToken, wallet, curve, providerAllowance);
    }

    /** `refreshTokenBalance`: without a client, a wallet or a token
        nothing is read; a failed read is ignored; otherwise the balance
        becomes the formatted read (storing an unchanged value is skipped,
        which leaves the same state). */
    method RefreshTokenBalance(hasClient: bool, wallet: string, token: string, balanceWei: Result<nat>)
      modifies this`tokenBalance
      ensures hasClient && wallet != "" && token != "" && balanceWei.Ok? ==>
        tokenBalance == Some(FormatEther(balanceWei.value))
      ensures !(hasClient && wallet != "" && token != "" && balanceWei.Ok?) ==> tokenBalance == old(tokenBalance)
    {
      if !hasClient || wallet == "" || token == "" {
        return;
      }
      if balanceWei.Ok? {
        var newBalance := FormatEther(balanceWei.value);
        if tokenBalance != Some(newBalance) {
          tokenBalance := Some(newBalance);
        }
      }
    }

    /** `refreshBondingCurveInfo`. `price`, `supply` and `cordex` are what
        `getCurrentPrice`, `getTokenSupply` and `getCordexTokenAddress`
        answer, each already "0", 0 or null when its read fails, so the
        refresh always stores a complete record. The allowance check that
        follows runs the closure of the same render: it uses the hook's own
        curve address rather than the override, and the cordex token stored
        before this refresh rather than the one just read. */
    method RefreshBondingCurveInfo(hasClient: bool, curveOverride: string, curve: string, wallet: string,
      providerToken: string, price: string, supply: nat, cordex: Option<string>,
      cordexAllowance: nat, providerAllowance: nat) returns (buyRead: bool, sellRead: bool)
      requires Valid()
      modifies this`curveInfo, this`storage, this`buyState, this`sellState
      ensures Valid()
      ensures !hasClient || (curveOverride == "" && curve == "") ==>
        (!buyRead && !sellRead && curveInfo == old(curveInfo)
         && storage == old(storage) && buyState == old(buyState) && sellState == old(sellState))
      ensures hasClient && (curveOverride != "" || curve != "") ==>
        curveInfo == CurveInfo(price, FormatEther(supply), cordex)
      ensures (hasClient && (curveOverride != "" || curve != "")
               && !(wallet != "" && cordex.Some? && cordex.value != "" && providerToken != "")) ==>
        (!buyRead && !sellRead && storage == old(storage) && buyState == old(buyState) && sellState == old(sellState))
      ensures (hasClient && (curveOverride != "" || curve != "")
               && wallet != "" && cordex.Some? && cordex.value != "" && providerToken != "") ==>
        var staleCordex := if old(curveInfo).cordexTokenAddress.Some? then old(curveInfo).cordexTokenAddress.value else "";
        (curve == "" ==> !buyRead && !sellRead && storage == old(storage) && buyState == old(buyState) && sellState == old(sellState))
        && (curve != "" ==> AllowancesChecked(old(storage), old(buyState), old(sellState), wallet, curve, staleCordex,
          providerToken, cordexAllowance, providerAllowance, buyRead, sellRead))
    {
      buyRead, sellRead := false, false;
      var target := if curveOverride != "" then curveOverride else curve;
      if !hasClient || target == "" {
        return;
      }
      var staleCordex := if curveInfo.cordexTokenAddress.Some? then curveInfo.cordexTokenAddress.value else "";
      curveInfo := CurveInfo(price, FormatEther(supply), cordex);
      if wallet != "" && cordex.Some? && cordex.value != "" && providerToken != "" {
        buyRead, sellRead := CheckAndUpdateAllowances(hasClient, wallet, curve, staleCordex, providerToken,
          cordexAllowance, providerAllowance);
      }
    }

    /** `fetchChartData`, with the two reads as inputs (an Err when the read
        throws). The candles are requested for the timeframe current when
        the fetch started. */
    method FetchChartData(curve: string, timeframes: Result<seq<string>>, candles: Result<seq<Candle>>)
      returns (requested: Option<string>)
      modifies this`chartData, this`chartTimeframe, this`availableTimeframes, this`isChartLoading
      ensures curve == "" ==> (requested.None? && chartData == old(chartData) && chartTimeframe == old(chartTimeframe)
        && availableTimeframes == old(availableTimeframes) && isChartLoading == old(isChartLoading))
      ensures curve != "" ==> !isChartLoading
      ensures curve != "" && timeframes.Err? ==> (requested.None? && chartData == []
        && chartTimeframe == old(chartTimeframe) && availableTimeframes == old(availableTimeframes))
      ensures curve != "" && timeframes.Ok? ==>
        requested == Some(old(chartTimeframe))
        && availableTimeframes == (if |timeframes.value| > 0 then timeframes.value else old(availableTimeframes))
        && chartTimeframe == ChooseTimeframe(old(chartTimeframe), timeframes.value)
        && chartData == (if candles.Ok? then candles.value else [])
    {
      requested := None;
      if curve == "" {
        return;
      }
      isChartLoading := true;
      if timeframes.Err? {
        chartData := [];
        isChartLoading := false;
        return;
      }
      var offered := timeframes.value;
      var timeframe := chartTimeframe;
      if |offered| > 0 {
        availableTimeframes := offered;
        if chartTimeframe !in offered {
          chartTimeframe := offered[0];
        }
      }
      requested := Some(timeframe);
      if candles.Ok? && |candles.value| > 0 {
        chartData := candles.value;
      } else {
        chartData := [];
      }
      isChartLoading := false;
    }

    /** `handleBuyAmountChange` / `handleSellAmountChange`. `ready` is
        whether a client and a curve are known, `isNumber` whether `Number`
        of the amount is not NaN, and `estimate` the quoted wei amount (an
        Err when `parseEther` or the quote throws). */
    method OnAmountChange(side: Side, amount: string, ready: bool, isNumber: bool, estimate: Result<nat>)
      modifies this`buyState, this`sellState
      ensures side == Buy ==> sellState == old(sellState)
      ensures side == Sell ==> buyState == old(buyState)
      ensures StateOf(side) == old(StateOf(side)).(amount := amount, estimatedCost :=
        if !ready || amount == "" || !isNumber then "0"
        else if estimate.Err? then "Error"
        else FormatEther(estimate.value))
    {
      SetState(side, StateOf(side).(amount := amount));
      if !ready || amount == "" || !isNumber {
        SetState(side, StateOf(side).(estimatedCost := "0"));
        return;
      }
      if estimate.Err? {
        SetState(side, StateOf(side).(estimatedCost := "Error"));
      } else {
        SetState(side, StateOf(side).(estimatedCost := FormatEther(estimate.value)));
      }
    }

    /** `approveBuy` / `approveSell`: approve the unlimited amount and, once
        confirmed, remember the allowance. `ready` is whether a client, the
        token, the curve and the async writer exist; the success message
        names cordex for the buy side and the token symbol for the sell side. */
    method Approve(side: Side, ready: bool, token: string, wallet: string, curve: string,
      symbol: Option<string>, outcome: TxOutcome) returns (approvedAmount: Option<nat>)
      requires Valid()
      modifies this`buyState, this`sellState, this`error, this`successInfo, this`storage
      ensures Valid()
      ensures side == Buy ==> sellState == old(sellState)
      ensures side == Sell ==> buyState == old(buyState)
      ensures !ready ==> (approvedAmount.None? && buyState == old(buyState) && sellState == old(sellState)
        && error == old(error) && successInfo == old(successInfo) && storage == old(storage))
      ensures ready ==> approvedAmount == Some(MaxUint256) && !StateOf(side).isApproving
      ensures ready && outcome.Confirmed? ==>
        StateOf(side) == old(StateOf(side)).(hasAllowance := true, isApproving := false)
        && storage == Remember(old(storage), AllowanceKey(side, token, wallet, curve), token != "" && curve != "" && wallet != "")
        && error.None?
        && successInfo == Some(SuccessInfo(
          (if side == Buy then "cordex" else TokenWord(symbol)) + " approved successfully!", outcome.txHash))
      ensures ready && !outcome.Confirmed? ==>
        StateOf(side) == old(StateOf(side)).(isApproving := false) && storage == old(storage)
        && successInfo.None?
        && error == Some(if side == Buy then "failed to approve cordex tokens" else "failed to approve provider tokens")
    {
      if !ready {
        return None;
      }
      SetState(side, StateOf(side).(isApproving := true));
      error := None;
      successInfo := None;
      approvedAmount := Some(MaxUint256);
      if outcome.Confirmed? {
        SetState(side, StateOf(side).(hasAllowance := true));
        if token != "" && curve != "" && wallet != "" {
          storage := storage[AllowanceKey(side, token, wallet, curve) := "true"];
        }
        var what := if side == Buy then "cordex" else TokenWord(symbol);
        successInfo := Some(SuccessInfo(what + " approved successfully!", outcome.txHash));
      } else {
        error := Some(if side == Buy then "failed to approve cordex tokens" else "failed to approve provider tokens");
        successInfo := None;
      }
      SetState(side, StateOf(side).(isApproving := false));
    }

    /** `executeBuy` / `executeSell`; the refreshes that follow a success
        are reads outside the model. */
    method Execute(side: Side, ready: bool, symbol: Option<string>, outcome: TxOutcome)
      returns (tradedAmount: Option<string>)
      modifies this`buyState, this`sellState, this`error, this`successInfo
      ensures side == Buy ==> sellState == old(sellState)
      ensures side == Sell ==> buyState == old(buyState)
      ensures !ready || old(StateOf(side)).amount == "" ==> (tradedAmount.None? && buyState == old(buyState)
        && sellState == old(sellState) && error == old(error) && successInfo == old(successInfo))
      ensures ready && old(StateOf(side)).amount != "" ==>
        tradedAmount == Some(old(StateOf(side)).amount) && !StateOf(side).isProcessing
      ensures ready && old(StateOf(side)).amount != "" && outcome.Confirmed? ==>
        StateOf(side) == old(StateOf(side)).(amount := "", estimatedCost := "0", isProcessing := false)
        && error.None?
        && successInfo == Some(SuccessInfo("successfully " + (if side == Buy then "bought " else "sold ")
          + old(StateOf(side)).amount + " " + TokenWord(symbol) + "!", outcome.txHash))
      ensures ready && old(StateOf(side)).amount != "" && !outcome.Confirmed? ==>
        StateOf(side) == old(StateOf(side)).(isProcessing := false) && successInfo.None?
        && error == Some(
          if outcome.NotConfirmed? then (if side == Buy then "buy" else "sell") + " transaction failed or confirmation timed out."
          else "failed to " + (if side == Buy then "buy" else "sell") + " tokens")
    {
      var amount := StateOf(side).amount;
      if !ready || amount == "" {
        return None;
      }
      SetState(side, StateOf(side).(isProcessing := true));
      error := None;
      successInfo := None;
      tradedAmount := Some(amount);
      var verb := if side == Buy then "buy" else "sell";
      if outcome.Confirmed? {
        SetState(side, StateOf(side).(amount := "", estimatedCost := "0"));
        successInfo := Some(SuccessInfo("successfully " + (if side == Buy then "bought " else "sold ")
          + amount + " " + TokenWord(symbol) + "!", outcome.txHash));
      } else if outcome.NotConfirmed? {
        error := Some(verb + " transaction failed or confirmation timed out.");
        successInfo := None;
      } else {
        error := Some("failed to " + verb + " tokens");
        successInfo := None;
      }
      SetState(side, StateOf(side).(isProcessing := false));
    }
  }
}
