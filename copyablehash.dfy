/** The `CopyableHash` component: a hash shown with its middle elided,
    and a copy button that copies the whole hash. */
module CopyableHash {
  import opened Wrappers

  const DefaultTruncateLength: nat := 6

  /** `truncatedHash`: the first and last `n` characters around "..."
      when the hash is longer than `2n`. */
  function Truncated(hash: string, n: nat): (r: string)
    ensures |hash| <= 2 * n ==> r == hash
    ensures |hash| > 2 * n ==> (|r| == 2 * n + 3 && r[..n] == hash[..n] && r[n..n + 3] == "..."
      && r[n + 3..] == hash[|hash| - n..])
  {
    if |hash| > 2 * n then hash[..n] + "..." + hash[|hash| - n..] else hash
  }

  /** Truncating what was already truncated changes nothing. */
  lemma TruncatedIsIdempotent(hash: string, n: nat)
    ensures Truncated(Truncated(hash, n), n) == Truncated(hash, n)
  {
    var r := Truncated(hash, n);
    if |hash| > 2 * n {
      assert r == r[..n] + "..." + r[|r| - n..];
    }
  }

  /** What is rendered: nothing for an empty hash. */
  function Rendered(hash: string, n: nat): (r: Option<string>)
    ensures r.None? <==> hash == ""
    ensures r.Some? ==> r.value == Truncated(hash, n)
  {
    if hash == "" then None else Some(Truncated(hash, n))
  }

  class Copyable {
    var copied: bool

    constructor ()
      ensures !copied
    {
      copied := false;
    }

    /** `handleCopy`: returns the text written to the clipboard. */
    method HandleCopy(hash: string) returns (clipboard: string)
      modifies this
      ensures clipboard == hash && copied
    {
      clipboard := hash;
      copied := true;
    }

    /** The timer that resets the confirmation. */
    method ResetCopied()
      modifies this
      ensures !copied
    {
      copied := false;
    }
  }
}
