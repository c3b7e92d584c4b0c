/** The `/bonding-curve` page: approve the factory for the maximum amount,
    then deploy a curve with whatever allowance is in place, tracking the
    watched hash, the deployment hash and the status. */
module BondingCurvePage {
  import opened Wrappers
  import opened EtherFormat

  const BondingFactory: string := "0xe68f605a83ca55e78e51ce3f46aea37c0454461c"
  const Slope: nat := 1000000000000
  const Intercept: nat := 10000000000000000

  const MissingTokenMessage := "Provider token address is missing."
  const NoApprovedAmountMessage := "No approved amount found or amount is zero."

  datatype Status = Idle | Pending | Approving | Success | Error

  /** A contract write the page sends. */
  datatype WriteCall =
    | ApproveCall(token: string, spender: string, amount: nat)
    | DeployCall(token: string, initialTokenAmount: nat, slope: nat, intercept: nat)

  datatype Receipt = Receipt(success: bool, transactionHash: string)

  class Page {
    /** The `tokenAddress` query parameter; "" when missing. */
    var providerToken: string
    /** The allowance read, None until it has arrived. */
    var allowanceData: Option<nat>
    var hasAllowance: bool
    var currentTxHash: Option<string>
    var deploymentTxHash: Option<string>
    var deploymentStatus: Status
    var errorMessage: string

    /** Success is reached only through the deployment hash, and every
        error comes with a message. */
    ghost predicate Valid()
      reads this
    {
      && (deploymentStatus == Success ==> deploymentTxHash.Some?)
      && (deploymentStatus == Error ==> errorMessage != "")
    }

    constructor (tokenAddress: string)
      ensures Valid() && providerToken == tokenAddress && allowanceData.None? && !hasAllowance
      ensures currentTxHash.None? && deploymentTxHash.None? && deploymentStatus == Idle && errorMessage == ""
    {
      providerToken := tokenAddress;
      allowanceData := None;
      hasAllowance := false;
      currentTxHash := None;
      deploymentTxHash := None;
      deploymentStatus := Idle;
      errorMessage := "";
    }

    /** The allowance effect: once the read has arrived, `hasAllowance` is
        whether it is positive. */
    method OnAllowanceData()
      requires Valid()
      modifies this`hasAllowance
      ensures Valid()
      ensures hasAllowance == if allowanceData.Some? then allowanceData.value > 0 else old(hasAllowance)
    {
      if allowanceData.Some? {
        hasAllowance := allowanceData.value > 0;
      }
    }

    /** The write-hash effect: the hash is watched; it is the deployment hash
        while pending, and clears the deployment hash while approving. */
    method OnWriteData(writeData: Option<string>)
      requires Valid()
      modifies this`currentTxHash, this`deploymentTxHash
      ensures Valid()
      ensures currentTxHash == if writeData.Some? then writeData else old(currentTxHash)
      ensures deploymentTxHash ==
        if writeData.Some? && deploymentStatus == Pending then writeData
        else if writeData.Some? && deploymentStatus == Approving then None
        else old(deploymentTxHash)
    {
      if writeData.Some? {
        currentTxHash := writeData;
        if deploymentStatus == Pending {
          deploymentTxHash := writeData;
        } else if deploymentStatus == Approving {
          deploymentTxHash := None;
        }
      }
    }

    /** The write-error effect; `error` is the error's message, "" when it
        has none. */
    method OnWriteError(error: Option<string>)
      requires Valid()
      modifies this`deploymentStatus, this`errorMessage
      ensures Valid()
      ensures error.None? ==> deploymentStatus == old(deploymentStatus) && errorMessage == old(errorMessage)
      ensures error.Some? ==> (deploymentStatus == Error
        && errorMessage == if error.value != "" then error.value else "Transaction failed")
    {
      if error.Some? {
        deploymentStatus := Error;
        errorMessage := if error.value != "" then error.value else "Transaction failed";
      }
    }

    /** The receipt effect, active only while pending or approving. */
    method OnReceipt(receipt: Option<Receipt>)
      requires Valid()
      modifies this`deploymentStatus, this`errorMessage
      ensures Valid()
      ensures receipt.None? || old(deploymentStatus) !in {Pending, Approving} ==>
        deploymentStatus == old(deploymentStatus) && errorMessage == old(errorMessage)
      ensures receipt.Some? && old(deploymentStatus) in {Pending, Approving} ==>
        if !receipt.value.success then
          deploymentStatus == Error && errorMessage == "Transaction reverted: " + receipt.value.transactionHash
        else if old(deploymentStatus) == Approving then
          deploymentStatus == Idle && errorMessage == old(errorMessage)
        else if Some(receipt.value.transactionHash) == deploymentTxHash then
          deploymentStatus == Success && errorMessage == old(errorMessage)
        else
          deploymentStatus == Pending && errorMessage == old(errorMessage)
    {
      if receipt.Some? && (deploymentStatus == Pending || deploymentStatus == Approving) {
        if receipt.value.success {
          if deploymentStatus == Approving {
            deploymentStatus := Idle;
            return;
          }
          if deploymentStatus == Pending && Some(receipt.value.transactionHash) == deploymentTxHash {
            deploymentStatus := Success;
          }
        } else {
          deploymentStatus := Error;
          errorMessage := "Transaction reverted: " + receipt.value.transactionHash;
        }
      }
    }

    /** `approveTokens`: approve the factory for `maxUint256`. */
    method ApproveTokens() returns (call: Option<WriteCall>)
      requires Valid()
      modifies this`deploymentStatus, this`errorMessage
      ensures Valid()
      ensures providerToken == "" ==> call.None? && deploymentStatus == old(deploymentStatus) && errorMessage == old(errorMessage)
      ensures providerToken != "" ==> (deploymentStatus == Approving && errorMessage == ""
        && call == Some(ApproveCall(providerToken, BondingFactory, MaxUint256)))
    {
      if providerToken == "" {
        return None;
      }
      deploymentStatus := Approving;
      errorMessage := "";
      call := Some(ApproveCall(providerToken, BondingFactory, MaxUint256));
    }

    /** `deployBondingCurve`: the whole current allowance becomes the
        initial token amount; none, or zero, is an error and nothing is sent. */
    method DeployBondingCurve() returns (call: Option<WriteCall>)
      requires Valid()
      modifies this`deploymentStatus, this`errorMessage
      ensures Valid()
      ensures providerToken == "" || allowanceData.None? || allowanceData == Some(0) ==>
        call.None? && deploymentStatus == Error && errorMessage == NoApprovedAmountMessage
      ensures providerToken != "" && allowanceData.Some? && allowanceData.value > 0 ==>
        deploymentStatus == Pending && errorMessage == ""
        && call == Some(DeployCall(providerToken, allowanceData.value, Slope, Intercept))
    {
      var approvedAmount := allowanceData;
      if providerToken == "" || approvedAmount.None? || approvedAmount.value == 0 {
        errorMessage := NoApprovedAmountMessage;
        deploymentStatus := Error;
        return None;
      }
      deploymentStatus := Pending;
      errorMessage := "";
      call := Some(DeployCall(providerToken, approvedAmount.value, Slope, Intercept));
    }

    /** `handleSubmit`: deploy when an allowance is in place, approve
        otherwise. The refetch it starts completes later, so the decision
        uses the allowance already read. */
    method HandleSubmit() returns (call: Option<WriteCall>)
      requires Valid()
      modifies this`deploymentStatus, this`errorMessage
      ensures Valid()
      ensures providerToken == "" ==> (call.None? && errorMessage == MissingTokenMessage
        && deploymentStatus == old(deploymentStatus))
      ensures providerToken != "" && allowanceData.Some? && allowanceData.value > 0 ==>
        deploymentStatus == Pending && errorMessage == ""
        && call == Some(DeployCall(providerToken, allowanceData.value, Slope, Intercept))
      ensures providerToken != "" && !(allowanceData.Some? && allowanceData.value > 0) ==>
        deploymentStatus == Approving && errorMessage == ""
        && call == Some(ApproveCall(providerToken, BondingFactory, MaxUint256))
    {
      if providerToken == "" {
        errorMessage := MissingTokenMessage;
        return None;
      }
      var currentAllowance := allowanceData;
      if currentAllowance.Some? && currentAllowance.value > 0 {
        call := DeployBondingCurve();
      } else {
        call := ApproveTokens();
      }
    }
  }
}
