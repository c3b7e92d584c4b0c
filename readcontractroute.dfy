/** The `GET /api/read-contract` route: query validation, the parsing of
    the comma-separated `args`, the ABI fragment chosen by function name, and
    the recursive conversion of the read result into something JSON can
    carry (every bigint becomes its decimal string). */
module ReadContractRoute {
  import opened Wrappers
  import opened JsString
  import opened Decimal

  /** A JavaScript value as the contract read can return it. */
  datatype Value =
    | BigIntValue(n: int)
    | StringValue(s: string)
    | NumberValue(x: real)
    | BoolValue(b: bool)
    | NullValue
    | UndefinedValue
    | ArrayValue(elems: seq<Value>)
    | ObjectValue(fields: seq<(string, Value)>)

  predicate NoBigInt(v: Value)
  {
    match v
    case BigIntValue(_) => false
    case ArrayValue(es) => forall i :: 0 <= i < |es| ==> NoBigInt(es[i])
    case ObjectValue(fs) => forall i :: 0 <= i < |fs| ==> NoBigInt(fs[i].1)
    case _ => true
  }

  function Keys(fields: seq<(string, Value)>): seq<string>
  {
    seq(|fields|, i requires 0 <= i < |fields| => fields[i].0)
  }

  /** `convertBigIntToString`. The `for…in` loop over an object writes each
      key, in order, with its converted value. */
  function Convert(v: Value): (r: Value)
    ensures v.BigIntValue? ==> r == StringValue(IntToString(v.n))
    ensures v.ArrayValue? ==> r.ArrayValue? && |r.elems| == |v.elems|
    ensures v.ArrayValue? ==> forall i :: 0 <= i < |v.elems| ==> r.elems[i] == Convert(v.elems[i])
    ensures v.ObjectValue? ==> r.ObjectValue? && Keys(r.fields) == Keys(v.fields)
    ensures v.ObjectValue? ==>
      forall i :: 0 <= i < |v.fields| ==> r.fields[i] == (v.fields[i].0, Convert(v.fields[i].1))
    ensures !v.BigIntValue? && !v.ArrayValue? && !v.ObjectValue? ==> r == v
    decreases v
  {
    match v
    case BigIntValue(n) => StringValue(IntToString(n))
    case ArrayValue(es) => ArrayValue(seq(|es|, i requires 0 <= i < |es| => Convert(es[i])))
    case ObjectValue(fs) => ObjectValue(seq(|fs|, i requires 0 <= i < |fs| => (fs[i].0, Convert(fs[i].1))))
    case _ => v
  }

  /** After conversion no bigint is left anywhere in the value. */
  lemma {:induction false} ConvertRemovesBigInts(v: Value)
    ensures NoBigInt(Convert(v))
    decreases v
  {
    match v
    case ArrayValue(es) =>
      forall i | 0 <= i < |es| ensures NoBigInt(Convert(v).elems[i]) {
        ConvertRemovesBigInts(es[i]);
      }
    case ObjectValue(fs) =>
      forall i | 0 <= i < |fs| ensures NoBigInt(Convert(v).fields[i].1) {
        ConvertRemovesBigInts(fs[i].1);
      }
    case _ =>
  }

  /** A value without bigints comes back unchanged: strings, numbers,
      booleans, null and undefined are returned as they are, and arrays and
      objects are rebuilt element by element. */
  lemma {:induction false} ConvertKeepsBigIntFree(v: Value)
    requires NoBigInt(v)
    ensures Convert(v) == v
    decreases v
  {
    match v
    case ArrayValue(es) =>
      forall i | 0 <= i < |es| ensures Convert(es[i]) == es[i] {
        ConvertKeepsBigIntFree(es[i]);
      }
    case ObjectValue(fs) =>
      forall i | 0 <= i < |fs| ensures (fs[i].0, Convert(fs[i].1)) == fs[i] {
        ConvertKeepsBigIntFree(fs[i].1);
      }
    case _ =>
  }

  /** The values the conversion leaves alone are exactly the bigint-free
      ones; in particular converting twice is converting once. */
  lemma {:induction false} ConvertFixedPoints(v: Value)
    ensures Convert(v) == v <==> NoBigInt(v)
    ensures Convert(Convert(v)) == Convert(v)
  {
    ConvertRemovesBigInts(v);
    ConvertKeepsBigIntFree(Convert(v));
    if NoBigInt(v) {
      ConvertKeepsBigIntFree(v);
    }
  }

  /** `/^-?\d+$/`: an optional minus sign and at least one digit. */
  predicate IsIntegerLiteral(s: string)
  {
    if |s| > 0 && s[0] == '-' then |s| > 1 && AllDigits(s[1..]) else |s| > 0 && AllDigits(s)
  }

  /** `BigInt(s)` on a string the regex accepted. */
  function ParseIntegerLiteral(s: string): (r: int)
    requires IsIntegerLiteral(s)
    ensures s[0] == '-' ==> r <= 0
    ensures s[0] != '-' ==> r >= 0
  {
    if s[0] == '-' then 0 - ParseDigits(s[1..]) as int else ParseDigits(s)
  }

  /** A parsed argument: a checksummed address, a bigint, or the raw text. */
  datatype Arg = AddressArg(address: string) | IntArg(n: int) | StringArg(s: string)

  /** One piece of `args`. `checksum` is viem's `getAddress` (the EIP-55
      mixed-case encoding), None where it throws. */
  function ParseArg(arg: string, checksum: string -> Option<string>): (r: Arg)
    ensures r.AddressArg? ==> StartsWith(arg, "0x") && |arg| == 42 && checksum(arg) == Some(r.address)
    ensures r.IntArg? ==> !(StartsWith(arg, "0x") && |arg| == 42) && IsIntegerLiteral(arg)
    ensures r.StringArg? ==> r.s == arg
    ensures StartsWith(arg, "0x") && |arg| == 42 && checksum(arg).Some? ==> r == AddressArg(checksum(arg).value)
    ensures StartsWith(arg, "0x") && |arg| == 42 && checksum(arg).None? ==> r == StringArg(arg)
    ensures !(StartsWith(arg, "0x") && |arg| == 42) && IsIntegerLiteral(arg) ==> r == IntArg(ParseIntegerLiteral(arg))
    ensures !(StartsWith(arg, "0x") && |arg| == 42) && !IsIntegerLiteral(arg) ==> r == StringArg(arg)
  {
    if StartsWith(arg, "0x") && |arg| == 42 then
      match checksum(arg)
      case Some(a) => AddressArg(a)
      case None => StringArg(arg)
    else if IsIntegerLiteral(arg) then IntArg(ParseIntegerLiteral(arg))
    else StringArg(arg)
  }

  /** The decimal text of every integer is read back as that bigint. */
  lemma ParseArgIntRoundTrip(n: int, checksum: string -> Option<string>)
    ensures ParseArg(IntToString(n), checksum) == IntArg(n)
  {
    var s := IntToString(n);
    if n < 0 {
      var d := NatToString(-n);
      assert s[0] == '-' && s[1..] == d;
      ParseNatToString(-n);
      assert IsIntegerLiteral(s);
      assert ParseIntegerLiteral(s) == n;
      assert !StartsWith(s, "0x");
    } else {
      ParseNatToString(n);
      assert IsDigit(s[0]);
      assert IsIntegerLiteral(s);
      assert ParseIntegerLiteral(s) == n;
      assert !StartsWith(s, "0x") by {
        if |s| >= 2 { assert IsDigit(s[1]); }
      }
    }
  }

  /** `args ? args.split(',').map(...) : []`: one argument per piece, in order. */
  function ParseArgs(args: Option<string>, checksum: string -> Option<string>): (r: seq<Arg>)
    ensures args.None? || args == Some("") ==> r == []
    ensures args.Some? && args.value != "" ==>
      var pieces := Split(args.value, ",");
      |r| == |pieces| && forall i :: 0 <= i < |r| ==> r[i] == ParseArg(pieces[i], checksum)
  {
    if args.None? || args.value == "" then []
    else
      var pieces := Split(args.value, ",");
      seq(|pieces|, i requires 0 <= i < |pieces| => ParseArg(pieces[i], checksum))
  }

  datatype AbiType = AddressType | Uint256Type | StringType | BytesType

  /** The view-function fragment passed to the read. */
  datatype AbiFragment = AbiFragment(name: string, inputs: seq<AbiType>, outputs: seq<AbiType>)

  /** The if-chain that picks a fragment by function name. */
  function SelectAbi(functionName: string): (r: AbiFragment)
    ensures |r.outputs| == 1 && forall i :: 0 <= i < |r.inputs| ==> r.inputs[i] == AddressType
    ensures r.name == functionName
    ensures functionName in {"name", "symbol"} ==> r.inputs == [] && r.outputs == [StringType]
    ensures functionName == "balanceOf" ==> r.inputs == [AddressType] && r.outputs == [Uint256Type]
    ensures functionName == "allowance" ==> r.inputs == [AddressType, AddressType] && r.outputs == [Uint256Type]
    ensures functionName in {"tokenSupply", "accumulatedFees", "getCurrentPrice"} ==> r.inputs == [] && r.outputs == [Uint256Type]
    ensures functionName in {"providerTokenAddress", "provider", "cordexTokenAddress"} ==> r.inputs == [] && r.outputs == [AddressType]
    ensures functionName !in KnownFunctions ==> r.inputs == [] && r.outputs == [BytesType]
  {
    if functionName == "name" || functionName == "symbol" then
      AbiFragment(functionName, [], [StringType])
    else if functionName == "balanceOf" then
      AbiFragment("balanceOf", [AddressType], [Uint256Type])
    else if functionName == "allowance" then
      AbiFragment("allowance", [AddressType, AddressType], [Uint256Type])
    else if functionName == "tokenSupply" || functionName == "accumulatedFees" || functionName == "getCurrentPrice" then
      AbiFragment(functionName, [], [Uint256Type])
    else if functionName == "providerTokenAddress" || functionName == "provider" || functionName == "cordexTokenAddress" then
      AbiFragment(functionName, [], [AddressType])
    else
      AbiFragment(functionName, [], [BytesType])
  }

  const KnownFunctions: set<string> := {"name", "symbol", "balanceOf", "allowance", "tokenSupply",
    "accumulatedFees", "getCurrentPrice", "providerTokenAddress", "provider", "cordexTokenAddress"}

  /** The read the route sends to the chain. */
  datatype ReadCall = ReadCall(address: string, abi: AbiFragment, functionName: string, args: seq<Arg>)

  const MissingParameters := "address and function parameters are required"
  const InvalidAddress := "Invalid address format"

  /** Everything before the read: the two 400 answers, or the call to make. */
  function PrepareRead(address: Option<string>, functionName: Option<string>, args: Option<string>,
                       checksum: string -> Option<string>): (r: Result<ReadCall>)
    ensures address.None? || address == Some("") || functionName.None? || functionName == Some("")
      ==> r == Err(MissingParameters)
    ensures address.Some? && address.value != "" && functionName.Some? && functionName.value != "" ==>
      (checksum(address.value).None? <==> r == Err(InvalidAddress))
    ensures r.Ok? ==> (checksum(address.value) == Some(r.value.address)
      && r.value.abi == SelectAbi(functionName.value) && r.value.args == ParseArgs(args, checksum))
    ensures (address.Some? && address.value != "" && functionName.Some? && functionName.value != ""
             && checksum(address.value).Some?) ==>
      r == Ok(ReadCall(checksum(address.value).value, SelectAbi(functionName.value), functionName.value,
                       ParseArgs(args, checksum)))
  {
    if address.None? || address.value == "" || functionName.None? || functionName.value == "" then
      Err(MissingParameters)
    else match checksum(address.value)
      case None => Err(InvalidAddress)
      case Some(formatted) =>
        Ok(ReadCall(formatted, SelectAbi(functionName.value), functionName.value, ParseArgs(args, checksum)))
  }

  /** What the read did: a value, a thrown `Error` with its message, or a
      thrown non-`Error`. */
  datatype ReadOutcome = Returned(value: Value) | ThrewError(message: string) | ThrewOther

  datatype Body = ResultBody(result: Value) | ErrorBody(error: string)

  datatype Response = Response(status: nat, body: Body)

  /** The route: 400 for bad parameters, 200 with the converted result, 500
      with the error's message (or "Unknown error") when the read throws. */
  function Get(address: Option<string>, functionName: Option<string>, args: Option<string>,
               checksum: string -> Option<string>, read: ReadOutcome): (r: Response)
    ensures r.status in {200, 400, 500}
    ensures r.status == 400 <==> PrepareRead(address, functionName, args, checksum).Err?
    ensures r.status == 400 ==> r.body == ErrorBody(PrepareRead(address, functionName, args, checksum).message)
    ensures r.status == 500 <==> PrepareRead(address, functionName, args, checksum).Ok? && !read.Returned?
    ensures r.status == 500 ==> r.body == ErrorBody(if read.ThrewError? then read.message else "Unknown error")
    ensures r.status == 200 ==> r.body.ResultBody? && NoBigInt(r.body.result) && r.body.result == Convert(read.value)
  {
    match PrepareRead(address, functionName, args, checksum)
    case Err(m) => Response(400, ErrorBody(m))
    case Ok(_) =>
      match read
      case Returned(v) =>
        ConvertRemovesBigInts(v);
        Response(200, ResultBody(Convert(v)))
      case ThrewError(m) => Response(500, ErrorBody(m))
      case ThrewOther => Response(500, ErrorBody("Unknown error"))
  }
}
