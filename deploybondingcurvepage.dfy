/** The `/deploy-bonding-curve` page: a percentage of the provider-token
    balance is approved to the factory and then deposited into a new curve.
    The page works on `parseFloat` of formatted ether strings; the model uses
    exact reals for those numbers and None for NaN. */
module DeployBondingCurvePage {
  import opened Wrappers

  const FactoryAddress: string := "0xca38c4d7889d7337ceea5c53db82f70f12a7b9e7"
  const FixedSlope: nat := 100000000000000
  const FixedIntercept: nat := 10000000000000000
  const WeiPerEther: real := 1000000000000000000.0

  const InvalidAmountMessage := "Invalid or missing token amount"
  const InsufficientBalanceToApprove := "Insufficient balance to approve this amount."
  const InvalidParametersMessage := "Missing or invalid required parameters."
  const InsufficientAllowanceMessage := "Insufficient allowance."
  const InsufficientBalanceToDeploy := "Insufficient balance to deploy this amount."
  const RevertedMessage := "Transaction reverted on the blockchain"

  /** `calculatedInitialTokenAmount`, read back with `parseFloat`: pct
      percent of the balance, or 0 when either is NaN, the balance is not
      positive, or the percentage is outside (0, 100]. */
  function CalculatedAmount(balance: Option<real>, pct: Option<real>): (r: real)
    ensures r > 0.0 <==> balance.Some? && pct.Some? && balance.value > 0.0 && 0.0 < pct.value <= 100.0
    ensures r <= 0.0 ==> r == 0.0
    ensures r > 0.0 ==> r <= balance.value
  {
    if balance.None? || pct.None? || balance.value <= 0.0 || pct.value <= 0.0 || pct.value > 100.0 then 0.0
    else
      PercentBounds(balance.value, pct.value);
      Percent(balance.value, pct.value)
  }

  function Percent(b: real, p: real): real
  {
    b * p / 100.0
  }

  /** A percentage in (0, 100] of a positive amount is positive and at most
      the amount. */
  lemma PercentBounds(b: real, p: real)
    requires b > 0.0 && 0.0 < p <= 100.0
    ensures 0.0 < Percent(b, p) <= b
  {
    assert b * p > 0.0;
    assert b * p <= b * 100.0;
  }


  /** `needsApproval`: the allowance does not cover a positive requirement. */
  predicate NeedsApproval(required: real, allowance: Option<real>)
  {
    required <= 0.0 || allowance.None? || allowance.value < required
  }

  predicate HasSufficientBalance(required: real, balance: Option<real>)
  {
    balance.Some? && balance.value >= required
  }

  predicate CanProceed(required: real, balance: Option<real>)
  {
    required > 0.0 && HasSufficientBalance(required, balance)
  }

  /** Why `approveTokens` refuses, if it does: no token or no positive
      amount, then an amount above the balance (a NaN balance compares
      false and lets the approval through). */
  function ApproveRejection(tokenAddress: string, amount: real, balance: Option<real>): (r: Option<string>)
    ensures r.None? <==> tokenAddress != "" && amount > 0.0 && !(balance.Some? && amount > balance.value)
  {
    if tokenAddress == "" || amount <= 0.0 then Some(InvalidAmountMessage)
    else if balance.Some? && amount > balance.value then Some(InsufficientBalanceToApprove)
    else None
  }

  /** Why `deployBondingCurve` refuses, if it does: no token or no positive
      requirement, then too little allowance, then too little balance. */
  function DeployRejection(tokenAddress: string, required: real, allowance: Option<real>, balance: Option<real>): (r: Option<string>)
    ensures r.None? <==> (tokenAddress != "" && required > 0.0
      && allowance.Some? && allowance.value >= required && !(balance.Some? && required > balance.value))
  {
    if tokenAddress == "" || required <= 0.0 then Some(InvalidParametersMessage)
    else if allowance.None? || allowance.value < required then Some(InsufficientAllowanceMessage)
    else if balance.Some? && required > balance.value then Some(InsufficientBalanceToDeploy)
    else None
  }

  /** With the amount the page computes, the approve button's enabling
      condition (`canProceed`) is exactly the condition under which
      `approveTokens` goes ahead. */
  lemma ApproveEnabledIffAccepted(tokenAddress: string, balance: Option<real>, pct: Option<real>)
    requires tokenAddress != ""
    ensures var required := CalculatedAmount(balance, pct);
      ApproveRejection(tokenAddress, required, balance).None? <==> CanProceed(required, balance)
  {
  }

  /** When the deploy button is shown enabled (approved, no approval
      needed, can proceed), the deploy goes ahead. */
  lemma DeployEnabledImpliesAccepted(tokenAddress: string, required: real, allowance: Option<real>, balance: Option<real>)
    requires tokenAddress != "" && !NeedsApproval(required, allowance) && CanProceed(required, balance)
    ensures DeployRejection(tokenAddress, required, allowance, balance).None?
  {
  }

  datatype Status = Idle | Approving | Approved | Deploying | Success | Error

  /** The panel the page renders, chosen by the if-chain over the status. */
  datatype Panel = SuccessPanel | ErrorPanel | DeployingPanel | ApprovingPanel | ReadyToDeployPanel | ApprovalFormPanel

  function SelectPanel(status: Status, needsApproval: bool, busy: bool): (r: Panel)
    ensures r == SuccessPanel <==> status == Success
    ensures r == ErrorPanel <==> status == Error
    ensures r == DeployingPanel <==> status == Deploying || (status == Approved && busy)
    ensures r == ApprovingPanel <==> status == Approving || (status == Idle && busy)
    ensures r == ReadyToDeployPanel <==> status == Approved && !needsApproval && !busy
    ensures r == ApprovalFormPanel <==> (status == Idle && !busy) || (status == Approved && needsApproval && !busy)
  {
    if status == Success then SuccessPanel
    else if status == Error then ErrorPanel
    else if status == Deploying || (status == Approved && busy) then DeployingPanel
    else if status == Approving || (status == Idle && busy) then ApprovingPanel
    else if status == Approved && !needsApproval then ReadyToDeployPanel
    else
      assert status == Idle || status == Approved;
      ApprovalFormPanel
  }

  datatype ButtonLabel = InsufficientBalance | EnterValidAmount | DeployLabel | ApproveLabel

  /** The deploy button's text, or the approve button's. */
  function DeployButtonLabel(required: real, balance: Option<real>): (r: ButtonLabel)
    ensures r == DeployLabel <==> CanProceed(required, balance)
    ensures r == InsufficientBalance <==> !HasSufficientBalance(required, balance)
    ensures r == EnterValidAmount <==> HasSufficientBalance(required, balance) && !CanProceed(required, balance)
  {
    if !HasSufficientBalance(required, balance) then InsufficientBalance
    else if !CanProceed(required, balance) then EnterValidAmount
    else DeployLabel
  }

  function ApproveButtonLabel(required: real, balance: Option<real>): (r: ButtonLabel)
    ensures r == ApproveLabel <==> CanProceed(required, balance)
    ensures r == InsufficientBalance <==> !HasSufficientBalance(required, balance)
    ensures r == EnterValidAmount <==> HasSufficientBalance(required, balance) && !CanProceed(required, balance)
  {
    if !HasSufficientBalance(required, balance) then InsufficientBalance
    else if !CanProceed(required, balance) then EnterValidAmount
    else ApproveLabel
  }

  datatype WriteCall =
    | ApproveCall(token: string, spender: string, amount: real)
    | DeployCall(token: string, amount: real, slope: nat, intercept: nat)

  datatype Receipt = Receipt(success: bool, transactionHash: string)

  class Page {
    var tokenAddress: string
    /** `parseFloat(tokenBalance)`, `parseFloat(allowance)` and
        `parseFloat(initialTokenAmountPercentage)`. */
    var balance: Option<real>
    var allowance: Option<real>
    var pct: Option<real>
    var txHash: Option<string>
    var status: Status
    var errorMessage: string

    /** An error always has a message to show. */
    ghost predicate Valid()
      reads this
    {
      status == Error ==> errorMessage != ""
    }

    function Required(): real
      reads this
    {
      CalculatedAmount(balance, pct)
    }

    constructor (token: string)
      ensures Valid() && tokenAddress == token && balance == Some(0.0) && allowance == Some(0.0)
      ensures pct == Some(50.0) && txHash.None? && status == Idle && errorMessage == ""
    {
      tokenAddress := token;
      balance := Some(0.0);
      allowance := Some(0.0);
      pct := Some(50.0);
      txHash := None;
      status := Idle;
      errorMessage := "";
    }

    /** The data effect for a new balance or allowance read (in wei). A zero
        balance read is falsy and leaves the balance alone. The status is
        judged against the requirement memoised by the render the effect
        belongs to, which was computed from the balance before this read: a
        sufficient allowance moves idle or approving to approved; an
        insufficient one moves approved back to idle. When the balance did
        change, the memo changes with it, React renders again and the effect
        runs once more with the same reads: a second call of OnData. */
    method OnData(balanceWei: Option<nat>, allowanceWei: Option<nat>)
      requires Valid()
      modifies this`balance, this`allowance, this`status
      ensures Valid()
      ensures balance == if balanceWei.Some? && balanceWei.value > 0 then Some(balanceWei.value as real / WeiPerEther) else old(balance)
      ensures allowance == if allowanceWei.Some? then Some(allowanceWei.value as real / WeiPerEther) else old(allowance)
      ensures allowanceWei.None? ==> status == old(status)
      ensures allowanceWei.Some? ==>
        var required := old(Required());
        status == if required > 0.0 && allowance.value >= required then
          (if old(status) in {Idle, Approving} then Approved else old(status))
        else if old(status) == Approved then Idle
        else old(status)
    {
      var requiredAmount := CalculatedAmount(balance, pct);
      if balanceWei.Some? && balanceWei.value > 0 {
        balance := Some(balanceWei.value as real / WeiPerEther);
      }
      if allowanceWei.Some? {
        var formattedAllowance := allowanceWei.value as real / WeiPerEther;
        allowance := Some(formattedAllowance);
        if requiredAmount > 0.0 && formattedAllowance >= requiredAmount {
          if status == Idle || status == Approving {
            status := Approved;
          }
        } else if status == Approved && (requiredAmount <= 0.0 || formattedAllowance < requiredAmount) {
          status := Idle;
        }
      }
    }

    method OnWriteData(writeData: Option<string>)
      requires Valid()
      modifies this`txHash
      ensures Valid()
      ensures txHash == if writeData.Some? then writeData else old(txHash)
    {
      if writeData.Some? {
        txHash := writeData;
      }
    }

    /** A write error is shown unless the deployment already succeeded. */
    method OnWriteError(error: Option<string>)
      requires Valid()
      modifies this`status, this`errorMessage
      ensures Valid()
      ensures error.None? || old(status) == Success ==> status == old(status) && errorMessage == old(errorMessage)
      ensures error.Some? && old(status) != Success ==>
        status == Error && errorMessage == if error.value != "" then error.value else "Transaction failed"
    {
      if error.Some? && status != Success {
        status := Error;
        errorMessage := if error.value != "" then error.value else "Transaction failed";
      }
    }

    /** The receipt effect. A receipt for another hash is ignored; a
        successful approval only triggers a refetch (the data effect then
        moves to approved); a successful deploy is the success; a revert is
        an error unless the deploy already succeeded. */
    method OnReceipt(receipt: Option<Receipt>) returns (refetchAllowance: bool)
      requires Valid()
      modifies this`status, this`errorMessage
      ensures Valid()
      ensures receipt.None? || Some(receipt.value.transactionHash) != txHash ==>
        status == old(status) && errorMessage == old(errorMessage) && !refetchAllowance
      ensures receipt.Some? && Some(receipt.value.transactionHash) == txHash ==>
        if receipt.value.success then
          errorMessage == old(errorMessage)
          && refetchAllowance == (old(status) == Approving)
          && status == (if old(status) == Deploying then Success else old(status))
        else
          !refetchAllowance
          && (old(status) == Success ==> status == Success && errorMessage == old(errorMessage))
          && (old(status) != Success ==> status == Error && errorMessage == RevertedMessage)
    {
      refetchAllowance := false;
      if receipt.Some? {
        if Some(receipt.value.transactionHash) != txHash {
          return;
        }
        if receipt.value.success {
          if status == Approving {
            refetchAllowance := true;
          } else if status == Deploying {
            status := Success;
          }
        } else {
          if status != Success {
            status := Error;
            errorMessage := RevertedMessage;
          }
        }
      }
    }

    /** `approveTokens`. `setupError` is the message of an exception thrown
        while preparing the write (`parseEther` of the amount text). */
    method ApproveTokens(setupError: Option<string>) returns (call: Option<WriteCall>)
      requires Valid()
      modifies this`status, this`errorMessage
      ensures Valid()
      ensures var rejection := ApproveRejection(tokenAddress, Required(), balance);
        if rejection.Some? then call.None? && status == Error && errorMessage == rejection.value
        else if setupError.Some? then call.None? && status == Error && errorMessage == "Approval setup failed: " + setupError.value
        else call == Some(ApproveCall(tokenAddress, FactoryAddress, Required())) && status == Approving && errorMessage == ""
    {
      var amountToDeposit := CalculatedAmount(balance, pct);
      if tokenAddress == "" || amountToDeposit <= 0.0 {
        errorMessage := InvalidAmountMessage;
        status := Error;
        return None;
      }
      if balance.Some? && amountToDeposit > balance.value {
        // a percentage of at most 100 never exceeds the balance in exact arithmetic
        assert false;
      }
      status := Approving;
      errorMessage := "";
      if setupError.Some? {
        status := Error;
        errorMessage := "Approval setup failed: " + setupError.value;
        return None;
      }
      call := Some(ApproveCall(tokenAddress, FactoryAddress, amountToDeposit));
    }

    /** `deployBondingCurve`, with the same treatment of a setup exception. */
    method DeployBondingCurve(setupError: Option<string>) returns (call: Option<WriteCall>)
      requires Valid()
      modifies this`status, this`errorMessage
      ensures Valid()
      ensures var rejection := DeployRejection(tokenAddress, Required(), allowance, balance);
        if rejection.Some? then call.None? && status == Error && errorMessage == rejection.value
        else if setupError.Some? then call.None? && status == Error && errorMessage == "Deployment setup failed: " + setupError.value
        else call == Some(DeployCall(tokenAddress, Required(), FixedSlope, FixedIntercept)) && status == Deploying && errorMessage == ""
    {
      var amountToDeposit := CalculatedAmount(balance, pct);
      var currentAllowance := allowance;
      var requiredAmount := amountToDeposit;
      if tokenAddress == "" || requiredAmount <= 0.0 {
        errorMessage := InvalidParametersMessage;
        status := Error;
        return None;
      }
      if currentAllowance.None? || currentAllowance.value < requiredAmount {
        errorMessage := InsufficientAllowanceMessage;
        status := Error;
        return None;
      }
      if balance.Some? && requiredAmount > balance.value {
        assert false;
      }
      status := Deploying;
      errorMessage := "";
      if setupError.Some? {
        status := Error;
        errorMessage := "Deployment setup failed: " + setupError.value;
        return None;
      }
      call := Some(DeployCall(tokenAddress, amountToDeposit, FixedSlope, FixedIntercept));
    }

    /** The reset effect: an approval that no longer covers the requirement
        sends the flow back to idle. */
    method OnAmountOrAllowanceChange()
      requires Valid()
      modifies this`status
      ensures Valid()
      ensures status == if old(status) == Approved && (Required() <= 0.0 || (allowance.Some? && allowance.value < Required()))
        then Idle else old(status)
    {
      var requiredAmount := CalculatedAmount(balance, pct);
      if status == Approved && (requiredAmount <= 0.0 || (allowance.Some? && allowance.value < requiredAmount)) {
        status := Idle;
      }
    }

    /** "try again": back to idle with no error and no hash. */
    method TryAgain()
      requires Valid()
      modifies this`status, this`errorMessage, this`txHash
      ensures Valid() && status == Idle && errorMessage == "" && txHash.None?
    {
      status := Idle;
      errorMessage := "";
      txHash := None;
    }
  }
}
