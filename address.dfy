/** Ethereum addresses as the front end handles them: `0x`-prefixed hex
    strings, the all-zero address that contracts return for "none", and the
    zero-address filter the read helpers apply to what they fetched. */
module Address {
  import opened Wrappers

  const ZeroAddress: string := "0x0000000000000000000000000000000000000000"

  /** A contract read that returns an address: the client may be missing
      (the read is skipped), and the call may throw. */
  datatype AddressRead = NoClient | Threw | Returned(address: string)

  /** The filter shared by `getBondingCurveContract` and
      `getProviderTokenAddressFromBondingCurve`: a missing client, a thrown
      call or the zero address give null; any other address is returned. */
  function NullIfZero(read: AddressRead): (r: Option<string>)
    ensures r.Some? <==> read.Returned? && read.address != ZeroAddress
    ensures r.Some? ==> r.value == read.address
  {
    match read
    case Returned(a) => if a == ZeroAddress then None else Some(a)
    case _ => None
  }
}
