/** The `DemoServiceRequestForm` component: the same wallet steps as the
    real form, but a request with a token answers with a demo image. */
module DemoServiceRequestForm {
  import opened Wrappers
  import opened JsString
  import opened ServiceRequestForm

  const DemoImages: seq<string> := ["/image.png"]

  datatype DemoAction = NoDemoAction | ShowImage | Approve(escrow: string) | Generate(escrow: string)

  /** The image picked by `floor(random * length)`, for a random value in [0, 1). */
  function PickImage(random: real): (r: string)
    requires 0.0 <= random < 1.0
    ensures r in DemoImages
  {
    var i := (random * |DemoImages| as real).Floor;
    assert 0 <= i < |DemoImages|;
    DemoImages[i]
  }

  class DemoForm {
    var requestInput: string
    var imageUrl: Option<string>
    var isLoadingApi: bool

    constructor ()
      ensures requestInput == "" && imageUrl.None? && !isLoadingApi
    {
      requestInput := "";
      imageUrl := None;
      isLoadingApi := false;
    }

    /** `handleSubmit`: the previous image is always cleared; blank input
        or a missing contract or escrow stops there; a token shows a demo
        image; otherwise approval comes before generation. */
    method HandleSubmit(h: HookState, providerContract: string, maxEscrow: string, random: real)
      returns (action: DemoAction)
      requires 0.0 <= random < 1.0
      modifies this`imageUrl, this`isLoadingApi
      ensures var ignored := IsBlank(requestInput) || providerContract == "" || maxEscrow == "";
        (ignored ==> action == NoDemoAction && imageUrl.None?)
        && (!ignored && h.tokenHash != "" ==> (action == ShowImage && imageUrl == Some(PickImage(random))
          && imageUrl.value in DemoImages && !isLoadingApi))
        && (!ignored && h.tokenHash == "" ==> (imageUrl.None?
          && action == if h.needsApproval then Approve(maxEscrow) else Generate(maxEscrow)))
      ensures (IsBlank(requestInput) || providerContract == "" || maxEscrow == "" || h.tokenHash == "") ==>
        isLoadingApi == old(isLoadingApi)
    {
      imageUrl := None;
      action := NoDemoAction;
      if IsBlank(requestInput) {
        return;
      }
      if providerContract == "" || maxEscrow == "" {
        return;
      }
      if h.tokenHash != "" {
        isLoadingApi := true;
        var randomImage := PickImage(random);
        imageUrl := Some(randomImage);
        isLoadingApi := false;
        return ShowImage;
      }
      if h.needsApproval {
        return Approve(maxEscrow);
      }
      action := Generate(maxEscrow);
    }

    method OnTokenChange(h: HookState)
      modifies this`imageUrl
      ensures imageUrl == if h.isGenerating || h.tokenHash == "" then None else old(imageUrl)
    {
      if h.isGenerating || h.tokenHash == "" {
        imageUrl := None;
      }
    }
  }

  /** The button text; it always names the action a submit would take. */
  function ButtonText(h: HookState): (r: string)
    ensures h.tokenHash != "" ==> r == "send request"
    ensures h.tokenHash == "" ==> r == if h.needsApproval then "approve crdx" else "generate token"
  {
    if h.tokenHash != "" then "send request"
    else if h.needsApproval then "approve crdx"
    else "generate token"
  }

  predicate IsProcessing(h: HookState, isLoadingApi: bool)
  {
    h.isCheckingAllowance || h.isApproving || h.isGenerating || h.isPending || h.isConfirming || isLoadingApi
  }

  /** The status text, by the fixed priority of the flags. */
  function StatusText(h: HookState, isLoadingApi: bool): (r: string)
    ensures r == "" <==> !IsProcessing(h, isLoadingApi)
    ensures h.isCheckingAllowance ==> r == "checking"
    ensures !h.isCheckingAllowance && h.isApproving ==> r == "approving"
    ensures !h.isCheckingAllowance && !h.isApproving && h.isGenerating ==> r == "generating"
    ensures !h.isCheckingAllowance && !h.isApproving && !h.isGenerating && h.isPending ==> r == "waiting"
    ensures (!h.isCheckingAllowance && !h.isApproving && !h.isGenerating && !h.isPending && h.isConfirming)
      ==> r == "confirming"
    ensures (!h.isCheckingAllowance && !h.isApproving && !h.isGenerating && !h.isPending && !h.isConfirming
      && isLoadingApi) ==> r == "processing"
  {
    if h.isCheckingAllowance then "checking"
    else if h.isApproving then "approving"
    else if h.isGenerating then "generating"
    else if h.isPending then "waiting"
    else if h.isConfirming then "confirming"
    else if isLoadingApi then "processing"
    else ""
  }
}
