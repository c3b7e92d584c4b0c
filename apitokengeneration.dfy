/** The `useApiTokenGeneration` hook: one `TokenGenerationState` record,
    updated field by field as the write and its receipt progress. */
module ApiTokenGeneration {
  import opened Wrappers

  datatype TokenGenerationState = TokenGenerationState(
    tokenHash: Option<string>,
    isGenerating: bool,
    isPending: bool,
    isConfirming: bool,
    isSuccess: bool,
    error: Option<string>,
    transactionHash: Option<string>)

  const InitialState := TokenGenerationState(None, false, false, false, false, None, None)

  const DefaultEscrow := "0.0001"

  /** What was thrown: an `Error` with its message, or any other value. */
  datatype Thrown = ErrorObject(message: string) | OtherValue

  function MessageOf(thrown: Thrown, default: string): (r: string)
    ensures thrown.ErrorObject? ==> r == thrown.message
    ensures thrown.OtherValue? ==> r == default
  {
    if thrown.ErrorObject? then thrown.message else default
  }

  /** The placeholder token hash: "0x" and sixty-four zeros. */
  function SimulatedTokenHash(): (r: string)
    ensures |r| == 66 && r[..2] == "0x"
    ensures forall i :: 2 <= i < |r| ==> r[i] == '0'
  {
    "0x" + seq(64, _ => '0')
  }

  class TokenGeneration {
    var state: TokenGenerationState

    constructor ()
      ensures state == InitialState
    {
      state := InitialState;
    }

    /** Mirrors the write hook's pending flag; becoming pending clears the error. */
    method OnPendingChange(isPending: bool)
      modifies this`state
      ensures isPending ==> state == old(state).(isPending := true, error := None)
      ensures !isPending ==> state == old(state).(isPending := false)
    {
      if isPending {
        state := state.(isPending := true, error := None);
      } else {
        state := state.(isPending := false);
      }
    }

    method OnHash(hash: Option<string>)
      modifies this`state
      ensures state == if hash.Some? then old(state).(transactionHash := hash) else old(state)
    {
      if hash.Some? {
        state := state.(transactionHash := hash);
      }
    }

    method OnConfirmingChange(isConfirming: bool)
      modifies this`state
      ensures state == old(state).(isConfirming := isConfirming)
    {
      if isConfirming {
        state := state.(isConfirming := true);
      } else {
        state := state.(isConfirming := false);
      }
    }

    /** A confirmed receipt: success, the placeholder hash, no longer generating. */
    method OnConfirmed(isSuccess: bool, hasReceipt: bool)
      modifies this`state
      ensures isSuccess && hasReceipt ==>
        state == old(state).(isSuccess := true, tokenHash := Some(SimulatedTokenHash()), isGenerating := false)
      ensures !(isSuccess && hasReceipt) ==> state == old(state)
    {
      if isSuccess && hasReceipt {
        state := state.(isSuccess := true);
        var simulatedTokenHash := SimulatedTokenHash();
        state := state.(tokenHash := Some(simulatedTokenHash), isGenerating := false);
      }
    }

    method OnWriteError(writeError: Option<Thrown>)
      modifies this`state
      ensures writeError.None? ==> state == old(state)
      ensures writeError.Some? ==>
        state == old(state).(error := Some(MessageOf(writeError.value, "Transaction failed")), isGenerating := false)
    {
      if writeError.Some? {
        state := state.(error := Some(MessageOf(writeError.value, "Transaction failed")), isGenerating := false);
      }
    }

    /** `generateToken`. `thrown` is what `generateApiToken` throws, if it
        does; the escrow defaults to 0.0001 and is returned as sent. */
    method GenerateToken(maxEscrow: Option<string>, thrown: Option<Thrown>) returns (escrow: string)
      modifies this`state
      ensures escrow == if maxEscrow.Some? then maxEscrow.value else DefaultEscrow
      ensures var started := old(state).(isGenerating := true, error := None, tokenHash := None, isSuccess := false);
        state == if thrown.None? then started
          else started.(error := Some(MessageOf(thrown.value, "Failed to generate token")), isGenerating := false)
    {
      escrow := if maxEscrow.Some? then maxEscrow.value else DefaultEscrow;
      state := state.(isGenerating := true, error := None, tokenHash := None, isSuccess := false);
      if thrown.Some? {
        state := state.(error := Some(MessageOf(thrown.value, "Failed to generate token")), isGenerating := false);
      }
    }

    method ResetToken()
      modifies this`state
      ensures state == InitialState
    {
      state := TokenGenerationState(None, false, false, false, false, None, None);
    }
  }
}
