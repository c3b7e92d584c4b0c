/** The `LaunchServiceFlow` component: one button runs the whole launch —
    deploy the provider contract, activate it, approve part of its token
    supply, deploy a bonding curve and register the service — and a failure
    sends the form back to the first step not yet done. */
module LaunchServiceFlow {
  import opened Wrappers

  datatype Step = Input | Confirming | DeployingService | ApprovingTokens | DeployingCurve | RegisteringService | Complete

  /** The steps a launch that goes through passes, in order. */
  const FullTrace: seq<Step> := [Confirming, DeployingService, Confirming, ApprovingTokens, DeployingCurve, RegisteringService, Complete]

  /** 0.05 and 0.1 with 18 decimals. */
  const DefaultSlope: nat := 50000000000000000
  const DefaultIntercept: nat := 100000000000000000

  const NotConnectedMessage := "Wallet not connected"
  const MissingFieldsMessage := "Please fill all required fields"
  const NoDeployEventMessage := "Failed to get deployment information"
  const NoContractMessage := "Provider contract address not found after deployment."
  const NoTokenMessage := "Provider token address not found after deployment."
  const NoCurveEventMessage := "Failed to get bonding curve information"
  const MissingAddressesMessage := "One or more contract addresses are missing for backend registration."
  const NotRegisteredMessage := "Failed to register the service with the backend."

  datatype Form = Form(serviceName: string, serviceDescription: string, apiEndpoint: string,
    maxEscrow: string, tokenName: string, tokenSymbol: string)

  /** Every field but the description is required. */
  predicate FormComplete(f: Form)
  {
    f.serviceName != "" && f.apiEndpoint != "" && f.tokenName != "" && f.tokenSymbol != ""
  }

  /** What a failed call threw. */
  datatype Failure = ErrorThrown(message: string) | ValueThrown

  function FailureMessage(f: Failure): string
  {
    if f.ErrorThrown? then f.message else "Failed to deploy service"
  }

  /** The result of one remote step: its value, or what it threw. */
  datatype Outcome<T> = Done(value: T) | Failed(failure: Failure)

  /** The `ProviderContractDeployed` event's arguments ("" when absent). */
  datatype DeployEvent = DeployEvent(contractAddress: string, ownershipTokenAddress: string)

  /** The service record sent to the back end. */
  datatype ServiceRecord = ServiceRecord(name: string, endpoint: string, providerContract: string,
    coinContract: string, bondingCurve: string, owner: string, isActive: bool)

  /** The step to return to after a failure: the first one still to do. */
  function RecoveryStep(providerContract: string, token: string, curve: string): (s: Step)
    ensures curve != "" ==> s == RegisteringService
    ensures curve == "" && token != "" ==> s == DeployingCurve
    ensures curve == "" && token == "" && providerContract != "" ==> s == ApprovingTokens
    ensures curve == "" && token == "" && providerContract == "" ==> s == Input
  {
    if curve != "" then RegisteringService
    else if token != "" then DeployingCurve
    else if providerContract != "" then ApprovingTokens
    else Input
  }

  /** The first steps of a launch, stage by stage. */
  lemma TracePrefixes()
    ensures FullTrace[..2] == [Confirming, DeployingService]
    ensures FullTrace[..3] == FullTrace[..2] + [Confirming]
    ensures FullTrace[..4] == FullTrace[..3] + [ApprovingTokens]
    ensures FullTrace[..5] == FullTrace[..4] + [DeployingCurve]
    ensures FullTrace[..6] == FullTrace[..5] + [RegisteringService]
    ensures FullTrace == FullTrace[..6] + [Complete]
  {
  }

  /** The part of the supply deposited into the curve. */
  function Deposit(totalSupply: nat, percentage: nat): (d: nat)
    requires 1 <= percentage <= 50
    ensures d * 100 <= totalSupply * percentage < (d + 1) * 100
  {
    totalSupply * percentage / 100
  }

  /** Never more than half of the supply goes into the curve. */
  lemma DepositAtMostHalf(totalSupply: nat, percentage: nat)
    requires 1 <= percentage <= 50
    ensures Deposit(totalSupply, percentage) * 2 <= totalSupply
  {
    var d := Deposit(totalSupply, percentage);
    assert d * 100 <= totalSupply * percentage;
    assert totalSupply * percentage <= totalSupply * 50;
  }

  /** The remote results of one launch. */
  datatype Calls = Calls(
    deploy: Outcome<Option<DeployEvent>>,
    activate: Option<Failure>,
    totalSupply: Outcome<nat>,
    approve: Option<Failure>,
    curve: Outcome<Option<string>>,
    created: Outcome<bool>)

  /** The provider contract and token the deployment produced, if it got that far. */
  function DeployedContract(c: Calls): string
  {
    if c.deploy.Done? && c.deploy.value.Some? then c.deploy.value.value.contractAddress else ""
  }

  function DeployedToken(c: Calls): string
  {
    if c.deploy.Done? && c.deploy.value.Some? then c.deploy.value.value.ownershipTokenAddress else ""
  }

  /** Whether the flow gets as far as the bonding-curve deployment. */
  predicate ReachesCurve(c: Calls)
  {
    DeployedContract(c) != "" && c.activate.None? && DeployedToken(c) != "" && c.totalSupply.Done? && c.approve.None?
  }

  /** The arguments of `deployBondingCurveContract`. */
  datatype CurveDeploy = CurveDeploy(token: string, amount: nat, slope: nat, intercept: nat)

  /** The bonding-curve deployment the flow sends once it gets that far:
      the deployed token, the very amount just approved, and the fixed
      slope and intercept. */
  function CurveDeployCall(c: Calls, percentage: nat): (r: Option<CurveDeploy>)
    requires 1 <= percentage <= 50
    ensures r.Some? <==> ReachesCurve(c)
    ensures r.Some? ==> r.value.token == DeployedToken(c) && r.value.token != ""
    ensures r.Some? ==> r.value.amount * 100 <= c.totalSupply.value * percentage < (r.value.amount + 1) * 100
    ensures r.Some? ==> r.value.amount * 2 <= c.totalSupply.value
    ensures r.Some? ==> r.value.slope == DefaultSlope && r.value.intercept == DefaultIntercept
  {
    if ReachesCurve(c) then
      DepositAtMostHalf(c.totalSupply.value, percentage);
      Some(CurveDeploy(DeployedToken(c), Deposit(c.totalSupply.value, percentage), DefaultSlope, DefaultIntercept))
    else None
  }

  function DeployedCurve(c: Calls): string
  {
    if ReachesCurve(c) && c.curve.Done? && c.curve.value.Some? then c.curve.value.value else ""
  }

  predicate Succeeds(c: Calls)
  {
    ReachesCurve(c) && DeployedCurve(c) != "" && c.created == Done(true)
  }

  /** Whether the deployment and the curve deployment produced their events. */
  predicate HasDeployEvent(c: Calls) { c.deploy.Done? && c.deploy.value.Some? }

  predicate HasCurveEvent(c: Calls) { ReachesCurve(c) && c.curve.Done? && c.curve.value.Some? }

  /** The message of the first stage that fails, in the order the stages
      run, or None when the launch goes through. */
  function LaunchFailure(c: Calls): (r: Option<string>)
    ensures r.None? <==> Succeeds(c)
  {
    if c.deploy.Failed? then Some(FailureMessage(c.deploy.failure))
    else if c.deploy.value.None? then Some(NoDeployEventMessage)
    else if DeployedContract(c) == "" then Some(NoContractMessage)
    else if c.activate.Some? then Some(FailureMessage(c.activate.value))
    else if DeployedToken(c) == "" then Some(NoTokenMessage)
    else if c.totalSupply.Failed? then Some(FailureMessage(c.totalSupply.failure))
    else if c.approve.Some? then Some(FailureMessage(c.approve.value))
    else if c.curve.Failed? then Some(FailureMessage(c.curve.failure))
    else if c.curve.value.None? then Some(NoCurveEventMessage)
    else if DeployedCurve(c) == "" then Some(MissingAddressesMessage)
    else if c.created.Failed? then Some(FailureMessage(c.created.failure))
    else if !c.created.value then Some(NotRegisteredMessage)
    else None
  }

  /** The `try` block of `handleServiceDeployment` once the form is complete:
      the stages run in order and stop at the first failure. Returns the
      failure message, the steps set, the approved deposit, the record sent to
      the back end and the three addresses obtained. */
  method Stages(owner: string, form: Form, calls: Calls, percentage: nat)
    returns (failure: Option<string>, steps: seq<Step>, reached: nat, approved: Option<nat>,
      registration: Option<ServiceRecord>, dp: string, dt: string, dc: string)
    requires 1 <= percentage <= 50
    ensures 2 <= reached < |FullTrace| && steps == FullTrace[..reached]
    ensures dp == DeployedContract(calls) && dt == DeployedToken(calls) && dc == DeployedCurve(calls)
    ensures failure.None? <==> Succeeds(calls)
    ensures failure.None? ==> (reached == 6
      && registration == Some(ServiceRecord(form.serviceName, form.apiEndpoint, dp, dt, dc, owner, true)))
    ensures approved.Some? <==> (dp != "" && calls.activate.None? && dt != "" && calls.totalSupply.Done?)
    ensures approved.Some? ==> approved.value == Deposit(calls.totalSupply.value, percentage)
    ensures failure == LaunchFailure(calls)
    ensures reached == (if !HasDeployEvent(calls) then 2 else if DeployedContract(calls) == "" || calls.activate.Some? then 3
      else if !ReachesCurve(calls) then 4 else if !HasCurveEvent(calls) then 5 else 6)
  {
    approved, registration := None, None;
    dp, dt, dc := "", "", "";
    failure := None;
    // Step 1: deploy the provider contract
    steps, reached := [Confirming, DeployingService], 2;
    if calls.deploy.Failed? {
      failure := Some(FailureMessage(calls.deploy.failure));
    } else if calls.deploy.value.None? {
      failure := Some(NoDeployEventMessage);
    } else {
      dp, dt := calls.deploy.value.value.contractAddress, calls.deploy.value.value.ownershipTokenAddress;
      // Step 1.5: activate it
      steps, reached := steps + [Confirming], 3;
      if dp == "" {
        failure := Some(NoContractMessage);
      } else if calls.activate.Some? {
        failure := Some(FailureMessage(calls.activate.value));
      } else {
        // Step 2: approve the deposit
        steps, reached := steps + [ApprovingTokens], 4;
        if dt == "" {
          failure := Some(NoTokenMessage);
        } else if calls.totalSupply.Failed? {
          failure := Some(FailureMessage(calls.totalSupply.failure));
        } else {
          approved := Some(Deposit(calls.totalSupply.value, percentage));
          if calls.approve.Some? {
            failure := Some(FailureMessage(calls.approve.value));
          } else {
            // Step 3: deploy the bonding curve
            steps, reached := steps + [DeployingCurve], 5;
            if calls.curve.Failed? {
              failure := Some(FailureMessage(calls.curve.failure));
            } else if calls.curve.value.None? {
              failure := Some(NoCurveEventMessage);
            } else {
              dc := calls.curve.value.value;
              // Step 4: register with the back end
              steps, reached := steps + [RegisteringService], 6;
              if dc == "" {
                failure := Some(MissingAddressesMessage);
              } else {
                registration := Some(ServiceRecord(form.serviceName, form.apiEndpoint, dp, dt, dc, owner, true));
                if calls.created.Failed? {
                  failure := Some(FailureMessage(calls.created.failure));
                } else if !calls.created.value {
                  failure := Some(NotRegisteredMessage);
                }
              }
            }
          }
        }
      }
    }
    TracePrefixes();
  }

  class Flow {
    var tokenPercentage: nat
    var currentStep: Step
    var error: Option<string>
    var providerContractAddress: string
    var providerTokenAddress: string
    var bondingCurveAddress: string

    /** The slider keeps the percentage between 1 and 50. */
    ghost predicate Valid()
      reads this
    {
      1 <= tokenPercentage <= 50
    }

    constructor ()
      ensures Valid() && tokenPercentage == 20 && currentStep == Input && error.None?
      ensures providerContractAddress == "" && providerTokenAddress == "" && bondingCurveAddress == ""
    {
      tokenPercentage := 20;
      currentStep := Input;
      error := None;
      providerContractAddress := "";
      providerTokenAddress := "";
      bondingCurveAddress := "";
    }

    method SetPercentage(value: nat)
      requires 1 <= value <= 50
      modifies this`tokenPercentage
      ensures Valid() && tokenPercentage == value
    {
      tokenPercentage := value;
    }

    /** The catch block: record the error, keep the addresses obtained and
        go back to the first step not done. */
    method Fail(steps: seq<Step>, message: string, dp: string, dt: string, dc: string) returns (r: seq<Step>)
      modifies this`error, this`providerContractAddress, this`providerTokenAddress, this`bondingCurveAddress, this`currentStep
      ensures error == Some(message) && currentStep == RecoveryStep(dp, dt, dc) && r == steps + [currentStep]
      ensures providerContractAddress == if dp != "" then dp else old(providerContractAddress)
      ensures providerTokenAddress == if dt != "" then dt else old(providerTokenAddress)
      ensures bondingCurveAddress == if dc != "" then dc else old(bondingCurveAddress)
    {
      error := Some(message);
      if dp != "" {
        providerContractAddress := dp;
      }
      if dt != "" {
        providerTokenAddress := dt;
      }
      if dc != "" {
        bondingCurveAddress := dc;
      }
      currentStep := RecoveryStep(dp, dt, dc);
      r := steps + [currentStep];
    }

    /** `handleServiceDeployment`. Returns every step set along the way, the
        approved deposit and the record registered, when those calls are made.
        The address setters the stages call are applied once the stages end:
        React state does not change under a running handler. */
    method HandleServiceDeployment(connected: bool, owner: string, form: Form, calls: Calls)
      returns (steps: seq<Step>, reached: nat, approved: Option<nat>, registration: Option<ServiceRecord>)
      requires Valid()
      modifies this`error, this`providerContractAddress, this`providerTokenAddress, this`bondingCurveAddress, this`currentStep
      ensures Valid()
      ensures !connected ==> (steps == [] && error == Some(NotConnectedMessage) && currentStep == old(currentStep)
        && approved.None? && registration.None?)
      ensures connected && !FormComplete(form) ==> (steps == [Confirming, Input] && currentStep == Input
        && error == Some(MissingFieldsMessage) && approved.None? && registration.None?)
      ensures !connected || !FormComplete(form) ==> (providerContractAddress == old(providerContractAddress)
        && providerTokenAddress == old(providerTokenAddress) && bondingCurveAddress == old(bondingCurveAddress))
      ensures connected && FormComplete(form) ==> (error == (if Succeeds(calls) then old(error) else LaunchFailure(calls))
        && providerContractAddress == (if HasDeployEvent(calls) then DeployedContract(calls) else old(providerContractAddress))
        && providerTokenAddress == (if HasDeployEvent(calls) then DeployedToken(calls) else old(providerTokenAddress))
        && bondingCurveAddress == (if HasCurveEvent(calls) then DeployedCurve(calls) else old(bondingCurveAddress)))
      ensures connected && FormComplete(form) ==> ((currentStep == Complete <==> Succeeds(calls))
        && (approved.Some? <==> (DeployedContract(calls) != "" && calls.activate.None? && DeployedToken(calls) != ""
          && calls.totalSupply.Done?))
        && (approved.Some? ==> approved.value == Deposit(calls.totalSupply.value, tokenPercentage)))
      ensures connected && FormComplete(form) && Succeeds(calls) ==> (steps == FullTrace && error == old(error)
        && providerContractAddress == DeployedContract(calls) && providerTokenAddress == DeployedToken(calls)
        && bondingCurveAddress == DeployedCurve(calls)
        && registration == Some(ServiceRecord(form.serviceName, form.apiEndpoint, DeployedContract(calls),
          DeployedToken(calls), DeployedCurve(calls), owner, true)))
      ensures connected && FormComplete(form) && !Succeeds(calls) ==> (error.Some?
        && currentStep == RecoveryStep(DeployedContract(calls), DeployedToken(calls), DeployedCurve(calls))
        && 2 <= reached < |FullTrace| && steps == FullTrace[..reached] + [currentStep])
    {
      if !connected {
        error := Some(NotConnectedMessage);
        return [], 0, None, None;
      }
      if !FormComplete(form) {
        error := Some(MissingFieldsMessage);
        currentStep := Input;
        return [Confirming, Input], 1, None, None;
      }
      var failure, dp, dt, dc;
      failure, steps, reached, approved, registration, dp, dt, dc := Stages(owner, form, calls, tokenPercentage);
      if HasDeployEvent(calls) {
        providerContractAddress, providerTokenAddress := dp, dt;
      }
      if HasCurveEvent(calls) {
        bondingCurveAddress := dc;
      }
      if failure.Some? {
        steps := Fail(steps, failure.value, dp, dt, dc);
      } else {
        TracePrefixes();
        steps, currentStep, reached := steps + [Complete], Complete, 7;
      }
    }
  }
}
