/** The `ServiceRequestForm` component: a prompt is sent to the service's
    API with an API token, approving escrow and generating the token first
    when there is none. */
module ServiceRequestForm {
  import opened Wrappers
  import opened JsString

  /** The token hook's state as the form reads it. `needsApproval`,
      `isCheckingAllowance` and `isApproving` are taken as given. */
  datatype HookState = HookState(
    tokenHash: string,
    isCheckingAllowance: bool,
    isApproving: bool,
    needsApproval: bool,
    isGenerating: bool,
    isPending: bool,
    isConfirming: bool,
    error: string)

  predicate HookBusy(h: HookState)
  {
    h.isApproving || h.isGenerating || h.isPending || h.isConfirming
  }

  /** What the form shows: the API's response or an error object. */
  datatype Response = ApiResult(body: string) | ErrorResponse(error: string)

  const ApiFailed := ErrorResponse("API request failed.")

  /** The next thing the flow asks of the wallet or the API. */
  datatype Action = NoAction | CallApi(token: string, query: string) | ApproveSpending(escrow: string) | GenerateToken(escrow: string)

  /** The response of an API call; `result` is None when it throws. */
  function ApiResponse(result: Option<string>): Response
  {
    if result.Some? then ApiResult(result.value) else ApiFailed
  }

  class Form {
    var requestInput: string
    var response: Option<Response>
    var isLoadingApi: bool
    var isUserActionInProgress: bool

    constructor ()
      ensures requestInput == "" && response.None? && !isLoadingApi && !isUserActionInProgress
    {
      requestInput := "";
      response := None;
      isLoadingApi := false;
      isUserActionInProgress := false;
    }

    /** `handleSubmit`. An existing token sends the request straight away
        (`apiResult` is its outcome); without one the flag hands over to
        the driving effect. */
    method HandleSubmit(h: HookState, providerContract: string, maxEscrow: string, endpoint: string, apiResult: Option<string>)
      returns (action: Action)
      modifies this`response, this`isLoadingApi, this`isUserActionInProgress
      ensures var ignored := IsBlank(requestInput) || providerContract == "" || maxEscrow == ""
          || h.isCheckingAllowance || (old(isUserActionInProgress) && (HookBusy(h) || old(isLoadingApi)));
        (ignored ==> (action == NoAction && response.None? && isLoadingApi == old(isLoadingApi)
          && isUserActionInProgress == old(isUserActionInProgress)))
        && (!ignored && h.tokenHash != "" ==> (action == CallApi(h.tokenHash, requestInput)
          && response == Some(ApiResponse(apiResult)) && !isLoadingApi && !isUserActionInProgress))
        && (!ignored && h.tokenHash == "" ==> (action == NoAction && response.None?
          && isLoadingApi == old(isLoadingApi) && isUserActionInProgress))
    {
      response := None;
      action := NoAction;
      if IsBlank(requestInput) || providerContract == "" || maxEscrow == "" {
        return;
      }
      if h.isCheckingAllowance {
        return;
      }
      if isUserActionInProgress && (h.isApproving || h.isGenerating || h.isPending || h.isConfirming || isLoadingApi) {
        return;
      }
      if h.tokenHash != "" {
        isUserActionInProgress := true;
        isLoadingApi := true;
        action := CallApi(h.tokenHash, requestInput);
        response := Some(ApiResponse(apiResult));
        isLoadingApi := false;
        isUserActionInProgress := false;
        return;
      }
      isUserActionInProgress := true;
    }

    /** The effect that drives the flow: with the flag set and nothing in
        flight, it calls the API once a token exists, else approves or
        generates, in that order of priority. */
    method DriveFlow(h: HookState, providerContract: string, maxEscrow: string, endpoint: string, apiResult: Option<string>)
      returns (action: Action)
      modifies this`response, this`isLoadingApi, this`isUserActionInProgress
      ensures var idle := !old(isUserActionInProgress) || HookBusy(h) || old(isLoadingApi);
        (idle ==> (action == NoAction && response == old(response) && isLoadingApi == old(isLoadingApi)
          && isUserActionInProgress == old(isUserActionInProgress)))
        && (!idle && h.tokenHash != "" ==> (!isLoadingApi && !isUserActionInProgress
          && (IsBlank(requestInput) || endpoint == "" ==>
            action == NoAction && response == Some(ErrorResponse("Internal error: Missing input for API call.")))
          && (!IsBlank(requestInput) && endpoint != "" ==>
            action == CallApi(h.tokenHash, requestInput) && response == Some(ApiResponse(apiResult)))))
        && (!idle && h.tokenHash == "" && maxEscrow == "" ==> (action == NoAction && !isUserActionInProgress
          && isLoadingApi == old(isLoadingApi)
          && response == Some(ErrorResponse(if h.needsApproval then "Internal error: Missing maxEscrow for approval."
            else "Internal error: Missing maxEscrow for token generation."))))
        && (!idle && h.tokenHash == "" && maxEscrow != "" ==> (response == old(response)
          && isLoadingApi == old(isLoadingApi) && isUserActionInProgress
          && action == (if h.needsApproval then ApproveSpending(maxEscrow) else GenerateToken(maxEscrow))))
    {
      action := NoAction;
      if !isUserActionInProgress {
        return;
      }
      if h.isApproving || h.isGenerating || h.isPending || h.isConfirming {
        return;
      }
      if isLoadingApi {
        return;
      }
      if h.tokenHash != "" {
        isLoadingApi := true;
        if IsBlank(requestInput) || endpoint == "" {
          response := Some(ErrorResponse("Internal error: Missing input for API call."));
          isUserActionInProgress := false;
        } else {
          action := CallApi(h.tokenHash, requestInput);
          response := Some(ApiResponse(apiResult));
        }
        isLoadingApi := false;
        isUserActionInProgress := false;
        return;
      }
      if h.needsApproval {
        if maxEscrow == "" {
          response := Some(ErrorResponse("Internal error: Missing maxEscrow for approval."));
          isUserActionInProgress := false;
          return;
        }
        action := ApproveSpending(maxEscrow);
      } else {
        if maxEscrow == "" {
          response := Some(ErrorResponse("Internal error: Missing maxEscrow for token generation."));
          isUserActionInProgress := false;
          return;
        }
        action := GenerateToken(maxEscrow);
      }
    }

    /** A hook error ends the user's action. */
    method OnHookError(h: HookState)
      modifies this`isUserActionInProgress
      ensures isUserActionInProgress == (old(isUserActionInProgress) && h.error == "")
    {
      if h.error != "" && isUserActionInProgress {
        isUserActionInProgress := false;
      }
    }

    /** A new or missing token clears the last response. */
    method OnTokenChange(h: HookState)
      modifies this`response
      ensures response == if h.isGenerating || h.tokenHash == "" then None else old(response)
    {
      if h.isGenerating || h.tokenHash == "" {
        response := None;
      }
    }

    predicate IsProcessing(h: HookState)
      reads this
    {
      h.isCheckingAllowance || HookBusy(h) || isLoadingApi
    }
  }

  /** The error line: the text before "Details:", else the text before
      "Reason:", else the whole error, in lower case. */
  function DisplayedError(error: string): (r: string)
    ensures |r| <= |error|
  {
    var details := Before(error, "Details:");
    var reason := Before(error, "Reason:");
    ToLower(if details != "" then details else if reason != "" then reason else error)
  }

  /** A text whose part before `sep` is empty starts with `sep`, unless it is empty. */
  lemma EmptyBeforeMeansStartsWith(s: string, sep: string)
    requires |sep| > 0 && s != "" && Before(s, sep) == ""
    ensures StartsWith(s, sep) && s[0] == sep[0]
  {
    match IndexOf(s, sep)
    case None =>
    case Some(i) =>
      assert i == 0;
      assert s[0..|sep|] == sep;
  }

  /** The last fallback of the error line never applies to a shown error:
      when nothing precedes "Details:", something precedes "Reason:". */
  lemma WholeErrorFallbackUnused(error: string)
    requires error != ""
    ensures Before(error, "Details:") == "" ==> Before(error, "Reason:") != ""
    ensures DisplayedError(error) == ToLower(if Before(error, "Details:") != "" then Before(error, "Details:")
      else Before(error, "Reason:"))
  {
    if Before(error, "Details:") == "" && Before(error, "Reason:") == "" {
      EmptyBeforeMeansStartsWith(error, "Details:");
      EmptyBeforeMeansStartsWith(error, "Reason:");
      assert false;
    }
  }
}
