/** The provider-contract deployment helpers of the service factory:
    reading the deployed contract addresses out of the receipt's
    `ProviderContractDeployed` log, and the zero-address filter on the
    factory's `getProviderContract` read.

    `ProviderContractDeployed(address indexed provider, address contractAddress,
    address ownershipTokenAddress, string apiEndpoint, uint256 maxEscrow)`
    keeps its non-indexed arguments ABI-encoded in the log's `data`: word 0 is
    `contractAddress` and word 1 is `ownershipTokenAddress`, each a 20-byte
    address left-padded with zeros to 32 bytes (64 hex characters). */
module ContractServices {
  import opened Wrappers
  import opened JsString
  import opened Address

  /** The lowercase address of the service factory. */
  const FactoryAddress: string := "0xaa0c84e338e8e1b1086b2f002a33306d2a2182b1"

  /** A receipt log. An absent `address` or `data` is "" (both are falsy),
      and absent `topics` behave like an empty list. */
  datatype Log = Log(address: string, topics: seq<string>, data: string)

  /** The result record: both fields start out undefined. */
  datatype Addresses = Addresses(providerContract: Option<string>, coinContract: Option<string>)

  const NoAddresses := Addresses(None, None)

  predicate FromFactory(log: Log)
  {
    log.address != "" && EqualsIgnoreCase(log.address, FactoryAddress)
  }

  /** The three guards a log must pass before its data is decoded. */
  predicate Qualifies(log: Log)
  {
    FromFactory(log) && |log.topics| > 0 && log.data != ""
  }

  /** What one qualifying log writes into the result: after dropping the
      "0x", characters [24, 64) and [88, 128), each behind a new "0x".
      `slice` clamps, so short data yields short or empty hex. */
  function DecodeData(data: string): (r: Addresses)
    ensures r.providerContract.Some? && r.coinContract.Some?
    ensures 2 <= |r.providerContract.value| <= 42 && r.providerContract.value[..2] == "0x"
    ensures 2 <= |r.coinContract.value| <= 42 && r.coinContract.value[..2] == "0x"
  {
    var raw := Slice(data, 2, |data|);
    Addresses(Some("0x" + Slice(raw, 24, 64)), Some("0x" + Slice(raw, 88, 128)))
  }

  /** The result after the loop has visited `logs`: every qualifying log
      overwrites both fields, so the last one wins. */
  function ExtractFrom(logs: seq<Log>): (r: Addresses)
    ensures r == NoAddresses || exists k :: 0 <= k < |logs| && Qualifies(logs[k]) && r == DecodeData(logs[k].data)
  {
    if logs == [] then NoAddresses
    else if Qualifies(logs[|logs| - 1]) then DecodeData(logs[|logs| - 1].data)
    else ExtractFrom(logs[..|logs| - 1])
  }

  /** `extractContractAddressFromReceipt`: the loop over `receipt.logs`.
      `logs` is None when the receipt carries no list. */
  method ExtractContractAddressFromReceipt(logs: Option<seq<Log>>) returns (result: Addresses)
    ensures logs.None? ==> result == NoAddresses
    ensures logs.Some? ==> result == ExtractFrom(logs.value)
  {
    result := NoAddresses;
    if logs.Some? && |logs.value| > 0 {
      var ls := logs.value;
      var i := 0;
      while i < |ls|
        invariant 0 <= i <= |ls|
        invariant result == ExtractFrom(ls[..i])
      {
        var log := ls[i];
        if log.address != "" && ToLower(log.address) == ToLower(FactoryAddress) {
          if |log.topics| > 0 {
            if log.data != "" {
              var rawData := Slice(log.data, 2, |log.data|);
              var providerContractHex := Slice(rawData, 24, 64);
              var coinContractHex := Slice(rawData, 64 + 24, 64 + 64);
              result := Addresses(Some("0x" + providerContractHex), Some("0x" + coinContractHex));
            }
          }
        }
        assert ls[..i + 1][..i] == ls[..i];
        i := i + 1;
      }
      assert ls[..i] == ls;
    }
  }

  /** The last qualifying log decides the result. */
  lemma {:induction false} LastQualifyingWins(logs: seq<Log>, j: nat)
    requires j < |logs| && Qualifies(logs[j])
    requires forall k :: j < k < |logs| ==> !Qualifies(logs[k])
    ensures ExtractFrom(logs) == DecodeData(logs[j].data)
    decreases |logs|
  {
    if j < |logs| - 1 {
      var front := logs[..|logs| - 1];
      assert front[j] == logs[j];
      LastQualifyingWins(front, j);
    }
  }

  /** With no qualifying log both fields stay undefined; with one, both are
      set. */
  lemma {:induction false} SetIffSomeLogQualifies(logs: seq<Log>)
    ensures ExtractFrom(logs) == NoAddresses <==> forall k :: 0 <= k < |logs| ==> !Qualifies(logs[k])
    ensures ExtractFrom(logs) != NoAddresses ==>
      ExtractFrom(logs).providerContract.Some? && ExtractFrom(logs).coinContract.Some?
    decreases |logs|
  {
    if logs != [] {
      var front := logs[..|logs| - 1];
      SetIffSomeLogQualifies(front);
      assert forall k :: 0 <= k < |front| ==> front[k] == logs[k];
    }
  }

  /** A log that does not qualify (another contract, no topics or no data)
      never changes the result, wherever it sits. */
  lemma {:induction false} OtherLogsIgnored(before: seq<Log>, log: Log, after: seq<Log>)
    requires !Qualifies(log)
    ensures ExtractFrom(before + [log] + after) == ExtractFrom(before + after)
    decreases |after|
  {
    if after == [] {
      assert (before + [log])[..|before|] == before;
      assert before + [log] + [] == before + [log];
      assert before + [] == before;
    } else {
      var a' := after[..|after| - 1];
      var x := after[|after| - 1];
      assert before + [log] + after == (before + [log] + a') + [x];
      assert before + after == (before + a') + [x];
      assert (before + [log] + a' + [x])[..|before + [log] + a'|] == before + [log] + a';
      assert (before + a' + [x])[..|before + a'|] == before + a';
      OtherLogsIgnored(before, log, a');
    }
  }

  /** One 32-byte ABI word holding a 20-byte address: 24 hex zeros, then the
      40 hex digits of the address. */
  function AddressWord(hex40: string): string
    requires |hex40| == 40
  {
    seq(24, _ => '0') + hex40
  }

  /** Decoding the data of a well-formed `ProviderContractDeployed` log
      recovers both addresses: the model is the inverse of the ABI encoding
      for the first two words. */
  lemma DecodeEncodedEvent(contractAddress: string, tokenAddress: string, rest: string)
    requires |contractAddress| == 40 && |tokenAddress| == 40
    ensures DecodeData("0x" + AddressWord(contractAddress) + AddressWord(tokenAddress) + rest)
      == Addresses(Some("0x" + contractAddress), Some("0x" + tokenAddress))
  {
    var data := "0x" + AddressWord(contractAddress) + AddressWord(tokenAddress) + rest;
    var raw := Slice(data, 2, |data|);
    assert raw == AddressWord(contractAddress) + AddressWord(tokenAddress) + rest;
    assert Slice(raw, 24, 64) == contractAddress;
    assert Slice(raw, 88, 128) == tokenAddress;
  }

  /** `getProviderContractAddress`: null without a client, when the call
      throws, or when it returns a falsy value or the zero address. */
  function GetProviderContractAddress(read: AddressRead): (r: Option<string>)
    ensures r.Some? <==> read.Returned? && read.address != "" && read.address != ZeroAddress
    ensures r.Some? ==> r.value == read.address
  {
    match read
    case Returned(data) => if data != "" && data != ZeroAddress then Some(data) else None
    case _ => None
  }
}
