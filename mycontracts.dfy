/** The `useMyContracts` hook: the user's provider tokens and bonding curves,
    and the fee-withdrawal action with its status and messages. */
module MyContracts {
  import opened Wrappers
  import opened JsString
  import opened Address
  import opened EtherFormat

  /** One result of a batched read with failures allowed. */
  datatype ReadResult = Failed | Text(text: string) | Amount(amount: nat)

  datatype ProviderToken = ProviderToken(address: string, name: string, symbol: string, balance: string)

  datatype BondingCurve = BondingCurve(
    address: string,
    tokenAddress: string,
    tokenName: string,
    tokenSymbol: string,
    accumulatedFees: string,
    tokenSupply: string)

  /** `result ?? default` for a text slot. */
  function TextOr(r: ReadResult, default: string): (s: string)
    ensures r.Text? ==> s == r.text
    ensures !r.Text? ==> s == default
  {
    if r.Text? then r.text else default
  }

  function AmountOr0(r: ReadResult): (n: nat)
    ensures r.Amount? ==> n == r.amount
    ensures !r.Amount? ==> n == 0
  {
    if r.Amount? then r.amount else 0
  }

  /** Entry `i` of the token list: slots 3i, 3i+1 and 3i+2 give the name,
      symbol and balance, each with its default. */
  function TokenAt(addresses: seq<string>, data: seq<ReadResult>, i: nat): ProviderToken
    requires i < |addresses| && |data| == 3 * |addresses|
  {
    ProviderToken(addresses[i], TextOr(data[3 * i], "Unknown Token"), TextOr(data[3 * i + 1], "???"),
      FormatEther(AmountOr0(data[3 * i + 2])))
  }

  lemma SlotsInRange(i: nat, n: nat)
    requires i < n
    ensures 3 * i + 2 < 3 * n
  {
  }

  /** One step of the flattening loop: appending entry `|tokens|`, built
      from its three slots. */
  lemma AppendToken(addresses: seq<string>, data: seq<ReadResult>, tokens: seq<ProviderToken>,
                    name: string, symbol: string, balance: nat)
    requires |tokens| < |addresses| && |data| == 3 * |addresses|
    requires forall k :: 0 <= k < |tokens| ==> tokens[k] == TokenAt(addresses, data, k)
    requires name == TextOr(data[3 * |tokens|], "Unknown Token") && symbol == TextOr(data[3 * |tokens| + 1], "???")
    requires balance == AmountOr0(data[3 * |tokens| + 2])
    ensures forall k :: 0 <= k < |tokens| + 1 ==>
      (tokens + [ProviderToken(addresses[|tokens|], name, symbol, FormatEther(balance))])[k] == TokenAt(addresses, data, k)
  {
    assert ProviderToken(addresses[|tokens|], name, symbol, FormatEther(balance)) == TokenAt(addresses, data, |tokens|);
  }

  /** The flattening loop: one token per address, in order. */
  method FlattenTokenDetails(addresses: seq<string>, data: seq<ReadResult>) returns (tokens: seq<ProviderToken>)
    requires |data| == 3 * |addresses|
    ensures |tokens| == |addresses|
    ensures forall i :: 0 <= i < |addresses| ==> tokens[i] == TokenAt(addresses, data, i)
  {
    tokens := [];
    var i := 0;
    while i < |addresses|
      invariant 0 <= i <= |addresses|
      invariant |tokens| == i
      invariant forall k :: 0 <= k < i ==> tokens[k] == TokenAt(addresses, data, k)
    {
      SlotsInRange(i, |addresses|);
      var baseIndex := 3 * i;
      var name := TextOr(data[baseIndex], "Unknown Token");
      var symbol := TextOr(data[baseIndex + 1], "???");
      var balance := AmountOr0(data[baseIndex + 2]);
      AppendToken(addresses, data, tokens, name, symbol, balance);
      tokens := tokens + [ProviderToken(addresses[i], name, symbol, FormatEther(balance))];
      i := i + 1;
    }
  }

  /** The first read of a curve: its token and its accumulated fees. */
  datatype PrimaryDetails = PrimaryDetails(curveAddress: string, tokenAddress: string, fees: nat)

  /** The second read: the token's name, symbol and the curve's balance of
      it, or a failure of any of the three. */
  datatype TokenInfo = InfoFailed | Info(name: string, symbol: string, supply: nat)

  /** One curve's details, with the fallbacks for a missing token and for a
      failed token read. */
  function CurveDetails(p: PrimaryDetails, info: TokenInfo): (c: BondingCurve)
    ensures c.address == p.curveAddress && c.accumulatedFees == FormatEther(p.fees)
    ensures p.tokenAddress == "" || p.tokenAddress == ZeroAddress ==>
      c == BondingCurve(p.curveAddress, "0x0", "Invalid Token Address", "ERR", FormatEther(p.fees), "0")
    ensures p.tokenAddress != "" && p.tokenAddress != ZeroAddress && info.InfoFailed? ==>
      c == BondingCurve(p.curveAddress, p.tokenAddress, "Error Loading Name", "ERR", FormatEther(p.fees), "Error")
    ensures p.tokenAddress != "" && p.tokenAddress != ZeroAddress && info.Info? ==>
      c.tokenAddress == p.tokenAddress && c.tokenSupply == FormatEther(info.supply)
      && c.tokenName == (if info.name != "" then info.name else "Unknown Token")
      && c.tokenSymbol == (if info.symbol != "" then info.symbol else "???")
  {
    if p.tokenAddress == "" || p.tokenAddress == ZeroAddress then
      BondingCurve(p.curveAddress, "0x0", "Invalid Token Address", "ERR", FormatEther(p.fees), "0")
    else if info.InfoFailed? then
      BondingCurve(p.curveAddress, p.tokenAddress, "Error Loading Name", "ERR", FormatEther(p.fees), "Error")
    else
      BondingCurve(p.curveAddress, p.tokenAddress,
        if info.name != "" then info.name else "Unknown Token",
        if info.symbol != "" then info.symbol else "???",
        FormatEther(p.fees), FormatEther(info.supply))
  }

  const RejectedText := "Transaction rejected by user."
  const FundsText := "Error: Insufficient funds for transaction."
  const Reverted := "execution reverted"
  const RevertFallback := "Contract execution failed"

  /** The text inside the first pair of quotes after the first "execution
      reverted", or the fallback when there is none or it is empty. */
  function RevertReason(message: string): (r: string)
    ensures r != ""
    ensures r == RevertFallback || '"' !in r
  {
    match SecondPiece(message, Reverted)
    case None => RevertFallback
    case Some(after) =>
      match SecondPiece(after, "\"")
      case None => RevertFallback
      case Some(quoted) =>
        if quoted == "" then RevertFallback
        else
          var i := IndexOf(after, "\"").value;
          BeforeExcludes(after[i + 1..], '"');
          quoted
  }

  /** The write-error classifier. */
  function ClassifyWriteError(message: string): (r: string)
    ensures Includes(message, "rejected") || Includes(message, "denied") <==> r == RejectedText
    ensures !Includes(message, "rejected") && !Includes(message, "denied") && Includes(message, "insufficient funds") ==>
      r == FundsText
    ensures !Includes(message, "rejected") && !Includes(message, "denied") && !Includes(message, "insufficient funds") ==>
      r == "Error: " + (if Includes(message, Reverted) then RevertReason(message) else message)
  {
    if Includes(message, "rejected") || Includes(message, "denied") then RejectedText
    else if Includes(message, "insufficient funds") then FundsText
    else
      var detail := if Includes(message, Reverted) then RevertReason(message) else message;
      ErrorTextIsNotRejection(detail);
      "Error: " + detail
  }

  lemma ErrorTextIsNotRejection(detail: string)
    ensures "Error: " + detail != RejectedText
  {
    assert ("Error: " + detail)[0] == 'E' != RejectedText[0];
  }

  /** Every classified message other than the rejection reads "Error: …". */
  lemma ClassifiedIsErrorText(message: string)
    ensures var r := ClassifyWriteError(message);
      r == RejectedText || (|r| >= 7 && r[..7] == "Error: ")
  {
  }

  datatype ActionStatus = Idle | Executing | Success | Error

  class Contracts {
    var actionStatus: ActionStatus
    var errorMessage: string
    var successMessage: string
    var txHash: Option<string>
    var selectedCurve: Option<string>
    var refetchCounter: nat
    var providerTokens: seq<ProviderToken>
    var bondingCurves: seq<BondingCurve>

    /** A failed action always has a message. */
    ghost predicate Valid()
      reads this
    {
      (actionStatus == Error ==> errorMessage != "")
    }

    constructor ()
      ensures Valid() && actionStatus == Idle && errorMessage == "" && successMessage == ""
      ensures txHash.None? && selectedCurve.None? && refetchCounter == 0 && providerTokens == [] && bondingCurves == []
    {
      actionStatus := Idle;
      errorMessage := "";
      successMessage := "";
      txHash := None;
      selectedCurve := None;
      refetchCounter := 0;
      providerTokens := [];
      bondingCurves := [];
    }

    method RefreshData()
      requires Valid()
      modifies this`actionStatus, this`errorMessage, this`successMessage, this`txHash, this`selectedCurve, this`refetchCounter
      ensures Valid()
      ensures actionStatus == Idle && errorMessage == "" && successMessage == "" && txHash.None? && selectedCurve.None?
      ensures refetchCounter == old(refetchCounter) + 1
    {
      actionStatus := Idle;
      errorMessage := "";
      successMessage := "";
      txHash := None;
      selectedCurve := None;
      refetchCounter := refetchCounter + 1;
    }

    /** The token-details effect: a full batch is flattened; a length
        mismatch after loading ends clears the list; otherwise nothing. */
    method ProcessTokenDetails(data: Option<seq<ReadResult>>, addresses: Option<seq<string>>, isLoadingTokens: bool)
      modifies this`providerTokens
      ensures data.Some? && addresses.Some? && |data.value| == 3 * |addresses.value| ==>
        |providerTokens| == |addresses.value|
        && forall i :: 0 <= i < |addresses.value| ==> providerTokens[i] == TokenAt(addresses.value, data.value, i)
      ensures !(data.Some? && addresses.Some? && |data.value| == 3 * |addresses.value|) ==>
        providerTokens == if addresses.Some? && !isLoadingTokens then [] else old(providerTokens)
    {
      if data.Some? && addresses.Some? && |data.value| == 3 * |addresses.value| {
        providerTokens := FlattenTokenDetails(addresses.value, data.value);
      } else if addresses.Some? && !isLoadingTokens {
        providerTokens := [];
      }
    }

    /** The curve-details effect. `ready` is whether there are curves, a
        connection, an account and a client; `primary` is the first round
        of reads (an Err when any of them throws) and `infos` the token
        reads, one per curve. */
    method FetchCurveDetails(ready: bool, primary: Result<seq<PrimaryDetails>>, infos: seq<TokenInfo>)
      requires Valid()
      requires primary.Ok? ==> |infos| == |primary.value|
      modifies this`bondingCurves, this`errorMessage
      ensures Valid()
      ensures !ready ==> bondingCurves == [] && errorMessage == old(errorMessage)
      ensures ready && primary.Err? ==> bondingCurves == [] && errorMessage == "Failed to load bonding curve details."
      ensures ready && primary.Ok? ==> (errorMessage == old(errorMessage)
        && |bondingCurves| == |primary.value|
        && forall i :: 0 <= i < |primary.value| ==> bondingCurves[i] == CurveDetails(primary.value[i], infos[i]))
    {
      if !ready {
        bondingCurves := [];
        return;
      }
      if primary.Err? {
        bondingCurves := [];
        errorMessage := "Failed to load bonding curve details.";
        return;
      }
      var p := primary.value;
      bondingCurves := seq(|p|, i requires 0 <= i < |p| => CurveDetails(p[i], infos[i]));
    }

    method OnWriteData(writeData: Option<string>)
      requires Valid()
      modifies this`txHash
      ensures Valid()
      ensures txHash == if writeData.Some? then writeData else old(txHash)
    {
      if writeData.Some? {
        txHash := writeData;
      }
    }

    /** The transaction-result effect, run only for an action this hook
        started. Success shows briefly and is immediately followed by a
        refresh, so it ends idle with no messages; a failed receipt is an
        error naming the receipt status. */
    method OnTransactionResult(isTxSuccess: bool, hasReceipt: bool, isTxError: bool, receiptStatus: Option<string>)
      requires Valid()
      modifies this`actionStatus, this`errorMessage, this`successMessage, this`txHash, this`selectedCurve, this`refetchCounter
      ensures Valid()
      ensures var handled := old(txHash).Some? && old(actionStatus) == Executing;
        (!handled || (!(isTxSuccess && hasReceipt) && !isTxError) ==>
          actionStatus == old(actionStatus) && errorMessage == old(errorMessage) && successMessage == old(successMessage)
          && txHash == old(txHash) && selectedCurve == old(selectedCurve) && refetchCounter == old(refetchCounter))
        && (handled && isTxSuccess && hasReceipt ==>
          actionStatus == Idle && errorMessage == "" && successMessage == "" && txHash.None? && selectedCurve.None?
          && refetchCounter == old(refetchCounter) + 1)
        && (handled && !(isTxSuccess && hasReceipt) && isTxError ==>
          actionStatus == Error && successMessage == "" && txHash == old(txHash) && selectedCurve == old(selectedCurve)
          && refetchCounter == old(refetchCounter)
          && errorMessage == "Transaction failed. Status: " + (if receiptStatus.Some? then receiptStatus.value else "unknown")
            + ". Check console or Etherscan.")
    {
      if txHash.None? || actionStatus != Executing {
        return;
      }
      if isTxSuccess && hasReceipt {
        actionStatus := Success;
        successMessage := "Transaction successful!";
        errorMessage := "";
        RefreshData();
      } else if isTxError {
        actionStatus := Error;
        errorMessage := "Transaction failed. Status: " + (if receiptStatus.Some? then receiptStatus.value else "unknown")
          + ". Check console or Etherscan.";
        successMessage := "";
      }
    }

    /** The write-error effect, run only while an action is executing: the
        classified message is shown and the hash is dropped. */
    method OnWriteError(writeError: Option<string>)
      requires Valid()
      modifies this`actionStatus, this`errorMessage, this`successMessage, this`txHash
      ensures Valid()
      ensures writeError.Some? && old(actionStatus) == Executing ==>
        actionStatus == Error && errorMessage == ClassifyWriteError(writeError.value) && successMessage == "" && txHash.None?
      ensures !(writeError.Some? && old(actionStatus) == Executing) ==>
        actionStatus == old(actionStatus) && errorMessage == old(errorMessage)
        && successMessage == old(successMessage) && txHash == old(txHash)
    {
      if writeError.Some? && actionStatus == Executing {
        actionStatus := Error;
        var displayMsg := ClassifyWriteError(writeError.value);
        errorMessage := displayMsg;
        successMessage := "";
        txHash := None;
      }
    }

    /** `withdrawFees`: without a wallet only a message is set; otherwise
        the action starts and the write goes to the curve whatever its fees. */
    method WithdrawFees(isConnected: bool, curveAddress: string) returns (write: Option<string>)
      requires Valid()
      modifies this`actionStatus, this`errorMessage, this`successMessage, this`txHash
      ensures Valid()
      ensures !isConnected ==> (write.None? && errorMessage == "Please connect your wallet."
        && actionStatus == old(actionStatus) && successMessage == old(successMessage) && txHash == old(txHash))
      ensures isConnected ==> (write == Some(curveAddress) && actionStatus == Executing
        && errorMessage == "" && successMessage == "" && txHash.None?)
    {
      if !isConnected {
        errorMessage := "Please connect your wallet.";
        return None;
      }
      actionStatus := Executing;
      errorMessage := "";
      successMessage := "";
      txHash := None;
      write := Some(curveAddress);
    }
  }
}
