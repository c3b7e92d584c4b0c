/** The `useServiceDeployment` hook: deploy a provider contract through the
    factory, pick the new addresses out of the receipt, register the service
    once, and activate a provider contract. */
module ServiceDeployment {
  import opened Wrappers
  import opened ContractServices

  datatype TxStatus = Idle | Pending | Success | Error
  datatype Action = Deploy | Activate

  datatype ServiceDetails = ServiceDetails(name: string, endpoint: string, imageUrl: Option<string>)

  /** The receipt of the last write: whether it succeeded and its logs. */
  datatype Receipt = Receipt(success: bool, logs: Option<seq<Log>>)

  /** The `createService` request sent to the back end. */
  datatype Registration = Registration(details: ServiceDetails, providerContract: string, coinContract: Option<string>)

  const ExtractionFailed := "Failed to extract contract addresses from transaction receipt"
  const RevertedMessage := "Transaction reverted on the blockchain"
  const ActivationFailed := "Contract activation transaction failed"

  /** `error.message || default`. */
  function MessageOr(message: string, default: string): (r: string)
    requires default != ""
    ensures r != ""
    ensures message != "" ==> r == message
  {
    if message != "" then message else default
  }

  class Deployment {
    var txHash: Option<string>
    var deploymentStatus: TxStatus
    var activationStatus: TxStatus
    var errorMessage: string
    var contractAddresses: Addresses
    var currentAction: Option<Action>
    var serviceDetails: Option<ServiceDetails>
    var isRegistered: bool

    /** A registered service always has the details it was registered with. */
    ghost predicate Valid()
      reads this
    {
      isRegistered ==> serviceDetails.Some?
    }

    constructor ()
      ensures Valid()
      ensures txHash.None? && deploymentStatus == Idle && activationStatus == Idle && errorMessage == ""
      ensures contractAddresses == NoAddresses && currentAction.None? && serviceDetails.None? && !isRegistered
    {
      txHash := None;
      deploymentStatus := Idle;
      activationStatus := Idle;
      errorMessage := "";
      contractAddresses := NoAddresses;
      currentAction := None;
      serviceDetails := None;
      isRegistered := false;
    }

    /** `deployService`: reset the deployment and remember the details for
        the later registration (the write itself is outside the model). */
    method DeployService(details: ServiceDetails)
      requires Valid()
      modifies this`currentAction, this`deploymentStatus, this`errorMessage, this`txHash,
        this`contractAddresses, this`isRegistered, this`serviceDetails
      ensures Valid()
      ensures currentAction == Some(Deploy) && deploymentStatus == Idle && errorMessage == "" && txHash.None?
      ensures contractAddresses == NoAddresses && !isRegistered && serviceDetails == Some(details)
    {
      currentAction := Some(Deploy);
      deploymentStatus := Idle;
      errorMessage := "";
      txHash := None;
      contractAddresses := NoAddresses;
      isRegistered := false;
      serviceDetails := Some(details);
    }

    /** A write hash makes the current action's status pending. */
    method OnWriteData(writeData: Option<string>)
      requires Valid()
      modifies this`txHash, this`deploymentStatus, this`activationStatus
      ensures Valid()
      ensures writeData.None? ==> (txHash == old(txHash) && deploymentStatus == old(deploymentStatus)
        && activationStatus == old(activationStatus))
      ensures writeData.Some? ==> (txHash == writeData
        && deploymentStatus == (if currentAction == Some(Deploy) then Pending else old(deploymentStatus))
        && activationStatus == (if currentAction == Some(Activate) then Pending else old(activationStatus)))
    {
      if writeData.Some? {
        txHash := writeData;
        if currentAction == Some(Deploy) {
          deploymentStatus := Pending;
        } else if currentAction == Some(Activate) {
          activationStatus := Pending;
        }
      }
    }

    /** A write error fails the current action, with the error's message or
        the action's default message. */
    method OnWriteError(error: Option<string>)
      requires Valid()
      modifies this`deploymentStatus, this`activationStatus, this`errorMessage
      ensures Valid()
      ensures error.None? || currentAction.None? ==>
        deploymentStatus == old(deploymentStatus) && activationStatus == old(activationStatus)
        && errorMessage == old(errorMessage)
      ensures error.Some? && currentAction == Some(Deploy) ==>
        deploymentStatus == Error && activationStatus == old(activationStatus)
        && errorMessage == MessageOr(error.value, "Deployment failed")
      ensures error.Some? && currentAction == Some(Activate) ==>
        activationStatus == Error && deploymentStatus == old(deploymentStatus)
        && errorMessage == MessageOr(error.value, "Activation failed")
    {
      if error.Some? {
        if currentAction == Some(Deploy) {
          deploymentStatus := Error;
          errorMessage := MessageOr(error.value, "Deployment failed");
        } else if currentAction == Some(Activate) {
          activationStatus := Error;
          errorMessage := MessageOr(error.value, "Activation failed");
        }
      }
    }

    /** The receipt effect. A deploy receipt is processed only while the
        deployment is pending: a success stores the extracted addresses and
        succeeds iff some log of the factory event was found; `lookup` is what
        the fallback `getProviderContractAddress` call returns when no
        provider contract was extracted (None when it is not made or finds
        nothing). An activation receipt is processed only while the
        activation is pending. */
    method OnReceipt(receipt: Option<Receipt>, lookup: Option<string>)
      requires Valid()
      modifies this`deploymentStatus, this`activationStatus, this`errorMessage, this`contractAddresses
      ensures Valid()
      ensures var deploying := receipt.Some? && currentAction == Some(Deploy) && old(deploymentStatus) == Pending;
        var activating := receipt.Some? && currentAction == Some(Activate) && old(activationStatus) == Pending;
        (!deploying && !activating ==>
          deploymentStatus == old(deploymentStatus) && activationStatus == old(activationStatus)
          && errorMessage == old(errorMessage) && contractAddresses == old(contractAddresses))
        && (deploying && !receipt.value.success ==>
          deploymentStatus == Error && errorMessage == RevertedMessage
          && contractAddresses == old(contractAddresses) && activationStatus == old(activationStatus))
        && (deploying && receipt.value.success ==>
          var extracted := if receipt.value.logs.Some? then ExtractFrom(receipt.value.logs.value) else NoAddresses;
          activationStatus == old(activationStatus)
          && contractAddresses == (if extracted.providerContract.None? && lookup.Some?
            then extracted.(providerContract := lookup) else extracted)
          && (extracted != NoAddresses ==> deploymentStatus == Success && errorMessage == old(errorMessage))
          && (extracted == NoAddresses ==> deploymentStatus == Error && errorMessage == ExtractionFailed))
        && (activating ==>
          deploymentStatus == old(deploymentStatus) && contractAddresses == old(contractAddresses)
          && activationStatus == (if receipt.value.success then Success else Error)
          && errorMessage == (if receipt.value.success then old(errorMessage) else ActivationFailed))
    {
      if receipt.None? {
        return;
      }
      var r := receipt.value;
      if currentAction == Some(Deploy) && deploymentStatus == Pending {
        if r.success {
          var extracted := ExtractContractAddressFromReceipt(r.logs);
          contractAddresses := extracted;
          if extracted.providerContract.None? && lookup.Some? {
            contractAddresses := contractAddresses.(providerContract := lookup);
          }
          if extracted.providerContract.Some? || extracted.coinContract.Some? {
            deploymentStatus := Success;
          } else {
            errorMessage := ExtractionFailed;
            deploymentStatus := Error;
          }
        } else {
          deploymentStatus := Error;
          errorMessage := RevertedMessage;
        }
      } else if currentAction == Some(Activate) && activationStatus == Pending {
        if r.success {
          activationStatus := Success;
        } else {
          activationStatus := Error;
          errorMessage := ActivationFailed;
        }
      }
    }

    /** The auto-register effect: it sends a registration only after a
        successful deployment with details and a provider contract, and only
        once; `created` is whether the back end returned a service. */
    method AutoRegister(created: bool) returns (request: Option<Registration>)
      requires Valid()
      modifies this`isRegistered
      ensures Valid()
      ensures var eligible := deploymentStatus == Success && serviceDetails.Some?
        && contractAddresses.providerContract.Some? && !old(isRegistered);
        (request.Some? <==> eligible)
        && (eligible ==> request.value == Registration(serviceDetails.value,
          contractAddresses.providerContract.value, contractAddresses.coinContract))
        && isRegistered == (old(isRegistered) || (eligible && created))
    {
      request := None;
      if deploymentStatus == Success && serviceDetails.Some? && contractAddresses.providerContract.Some? && !isRegistered {
        request := Some(Registration(serviceDetails.value, contractAddresses.providerContract.value, contractAddresses.coinContract));
        if created {
          isRegistered := true;
        }
      }
    }

    /** `activateContract`: a no-op for an empty address; otherwise the
        activation becomes pending with no error and no hash. */
    method ActivateContract(contractAddress: string) returns (written: bool)
      requires Valid()
      modifies this`currentAction, this`activationStatus, this`errorMessage, this`txHash
      ensures Valid()
      ensures written <==> contractAddress != ""
      ensures !written ==> (currentAction == old(currentAction) && activationStatus == old(activationStatus)
        && errorMessage == old(errorMessage) && txHash == old(txHash))
      ensures written ==> (currentAction == Some(Activate) && activationStatus == Pending
        && errorMessage == "" && txHash.None?)
    {
      if contractAddress == "" {
        return false;
      }
      currentAction := Some(Activate);
      activationStatus := Pending;
      errorMessage := "";
      txHash := None;
      written := true;
    }
  }

  /** A successful deploy receipt succeeds exactly when one of its logs is a
      factory log with topics and data. */
  lemma DeploySucceedsIffEventFound(logs: seq<Log>)
    ensures ExtractFrom(logs) != NoAddresses <==> exists k :: 0 <= k < |logs| && Qualifies(logs[k])
  {
    SetIffSomeLogQualifies(logs);
  }
}
