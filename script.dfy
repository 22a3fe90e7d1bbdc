/** The LBRY claim payout scripts of lbrycrd/script.go, at the level of
    script tokens. Each builder lays out a claim opcode, its data pushes,
    OP_2DROP OP_DROP (which discard the claim data when the output is spent),
    and then the ordinary pay-to-address script of the payee.

    `txscript.PayToAddrScript` is a collaborator that may fail; the builders
    take it as a function argument. Claim ids are hex strings; they are
    decoded and pushed with their bytes in reverse order. */
module Script {
  import opened Wrappers
  import opened Bytes
  import Hex

  /** The opcodes the builders write by name, and any other opcode a
      pay-to-address script may hold. */
  datatype Opcode = OpClaimName | OpSupportClaim | OpUpdateClaim | Op2Drop | OpDrop | OpOther(code: byte)

  /** A script token: an opcode (`AddOp`) or a data push (`AddData`). */
  datatype Token = Op(op: Opcode) | Push(data: Bytes)

  type Script = seq<Token>

  /** Why a builder returns no script: the address has no pay-to-address
      script, or the claim id is not hex. */
  datatype ScriptError<E> = AddressError(addressError: E) | ClaimIDError(hexError: Hex.DecodeError)

  /** OP_2DROP OP_DROP and then the pay-to-address script: how every payout script ends. */
  function PayoutTail(pkscript: Script): (r: Script)
  {
    [Op(Op2Drop), Op(OpDrop)] + pkscript
  }

  /** `GetClaimSupportPayoutScript`: OP_SUPPORTCLAIM <name> <claim id> OP_2DROP OP_DROP <pkscript>.
      The address is checked before the claim id, so a bad address is the
      error reported even when the claim id is bad too. */
  function ClaimSupportPayoutScript<A, E>(name: Bytes, claimID: Bytes, address: A,
                                          payToAddrScript: A -> Result<Script, E>): (r: Result<Script, ScriptError<E>>)
    ensures payToAddrScript(address).Failure? ==> r == Failure(AddressError(payToAddrScript(address).error))
    ensures payToAddrScript(address).Success? && Hex.Decode(claimID).Failure? ==>
              r == Failure(ClaimIDError(Hex.Decode(claimID).error))
    ensures r.Success? <==> payToAddrScript(address).Success? && Hex.Decode(claimID).Success?
    ensures r.Success? ==> |r.value| == 5 + |payToAddrScript(address).value|
    ensures r.Success? ==> EndsWith(r.value, PayoutTail(payToAddrScript(address).value))
  {
    match payToAddrScript(address)
    case Failure(e) => Failure(AddressError(e))
    case Success(pkscript) =>
      match Hex.Decode(claimID)
      case Failure(e) => Failure(ClaimIDError(e))
      case Success(bytes) =>
        var s := [Op(OpSupportClaim), Push(name), Push(Reverse(bytes))] + PayoutTail(pkscript);
        assert s[|s| - |PayoutTail(pkscript)|..] == PayoutTail(pkscript);
        Success(s)
  }

  /** `GetClaimNamePayoutScript`: OP_CLAIMNAME <name> <value> OP_2DROP OP_DROP <pkscript>.
      The value is pushed as it is; only the address can make it fail. */
  function ClaimNamePayoutScript<A, E>(name: Bytes, value: Bytes, address: A,
                                       payToAddrScript: A -> Result<Script, E>): (r: Result<Script, ScriptError<E>>)
    ensures payToAddrScript(address).Failure? ==> r == Failure(AddressError(payToAddrScript(address).error))
    ensures r.Success? <==> payToAddrScript(address).Success?
    ensures r.Success? ==> |r.value| == 5 + |payToAddrScript(address).value|
    ensures r.Success? ==> EndsWith(r.value, PayoutTail(payToAddrScript(address).value))
  {
    match payToAddrScript(address)
    case Failure(e) => Failure(AddressError(e))
    case Success(pkscript) =>
      var s := [Op(OpClaimName), Push(name), Push(value)] + PayoutTail(pkscript);
      assert s[|s| - |PayoutTail(pkscript)|..] == PayoutTail(pkscript);
      Success(s)
  }

  /** `GetUpdateClaimPayoutScript`: OP_UPDATECLAIM <name> <claim id> <value> OP_2DROP OP_DROP <pkscript>,
      with the same error order as the support builder. */
  function UpdateClaimPayoutScript<A, E>(name: Bytes, claimID: Bytes, value: Bytes, address: A,
                                         payToAddrScript: A -> Result<Script, E>): (r: Result<Script, ScriptError<E>>)
    ensures payToAddrScript(address).Failure? ==> r == Failure(AddressError(payToAddrScript(address).error))
    ensures payToAddrScript(address).Success? && Hex.Decode(claimID).Failure? ==>
              r == Failure(ClaimIDError(Hex.Decode(claimID).error))
    ensures r.Success? <==> payToAddrScript(address).Success? && Hex.Decode(claimID).Success?
    ensures r.Success? ==> |r.value| == 6 + |payToAddrScript(address).value|
    ensures r.Success? ==> EndsWith(r.value, PayoutTail(payToAddrScript(address).value))
  {
    match payToAddrScript(address)
    case Failure(e) => Failure(AddressError(e))
    case Success(pkscript) =>
      match Hex.Decode(claimID)
      case Failure(e) => Failure(ClaimIDError(e))
      case Success(bytes) =>
        var s := [Op(OpUpdateClaim), Push(name), Push(Reverse(bytes)), Push(value)] + PayoutTail(pkscript);
        assert s[|s| - |PayoutTail(pkscript)|..] == PayoutTail(pkscript);
        Success(s)
  }

  // ---------------------------------------------------------------------
  // Reading a payout script back

  /** The claim a payout script carries. `claimID` is in the order hex
      decoding gives, the reverse of the order in the script. */
  datatype Claim =
    | ClaimName(name: Bytes, value: Bytes)
    | SupportClaim(name: Bytes, claimID: Bytes)
    | UpdateClaim(name: Bytes, claimID: Bytes, value: Bytes)

  /** Tokens i, ..., j - 1 of `s` are all data pushes. */
  predicate Pushes(s: Script, i: nat, j: nat)
  {
    i <= j <= |s| && forall k | i <= k < j :: s[k].Push?
  }

  /** Reads the claim prefix of a payout script: the claim, and the script
      that follows OP_2DROP OP_DROP. None when `s` does not start with one. */
  function ParsePayout(s: Script): (r: Option<(Claim, Script)>)
    ensures r.Some? ==> EndsWith(s, PayoutTail(r.value.1))
  {
    if |s| >= 5 && s[0] == Op(OpClaimName) && Pushes(s, 1, 3) && s[3] == Op(Op2Drop) && s[4] == Op(OpDrop) then
      assert s[|s| - |s[3..]|..] == s[3..];
      Some((ClaimName(s[1].data, s[2].data), s[5..]))
    else if |s| >= 5 && s[0] == Op(OpSupportClaim) && Pushes(s, 1, 3) && s[3] == Op(Op2Drop) && s[4] == Op(OpDrop) then
      assert s[|s| - |s[3..]|..] == s[3..];
      Some((SupportClaim(s[1].data, Reverse(s[2].data)), s[5..]))
    else if |s| >= 6 && s[0] == Op(OpUpdateClaim) && Pushes(s, 1, 4) && s[4] == Op(Op2Drop) && s[5] == Op(OpDrop) then
      assert s[|s| - |s[4..]|..] == s[4..];
      Some((UpdateClaim(s[1].data, Reverse(s[2].data), s[3].data), s[6..]))
    else None
  }

  /** A support script reads back as a support for `name` with the decoded
      claim id, followed by the pay-to-address script; printing that claim id
      in hex gives back the caller's claim id, up to letter case. */
  lemma {:induction false} SupportScriptReadsBack<A, E>(name: Bytes, claimID: Bytes, address: A,
                                                          payToAddrScript: A -> Result<Script, E>)
    requires ClaimSupportPayoutScript(name, claimID, address, payToAddrScript).Success?
    ensures var s := ClaimSupportPayoutScript(name, claimID, address, payToAddrScript).value;
            ParsePayout(s) == Some((SupportClaim(name, Hex.Decode(claimID).value), payToAddrScript(address).value))
    ensures Hex.Encode(Hex.Decode(claimID).value) == Hex.LowerAll(claimID)
  {
    var bytes := Hex.Decode(claimID).value;
    var pk := payToAddrScript(address).value;
    var s := ClaimSupportPayoutScript(name, claimID, address, payToAddrScript).value;
    assert s == [Op(OpSupportClaim), Push(name), Push(Reverse(bytes))] + PayoutTail(pk);
    assert Pushes(s, 1, 3) && s[5..] == pk;
    ReverseReverse(bytes);
    Hex.EncodeDecode(claimID);
  }

  /** The claim id a support script pushes is the decoded claim id reversed:
      half as long as its hex form, and reversing it again gives the decoded id. */
  lemma {:induction false} ClaimIDPushedReversed<A, E>(name: Bytes, claimID: Bytes, address: A,
                                    payToAddrScript: A -> Result<Script, E>)
    requires ClaimSupportPayoutScript(name, claimID, address, payToAddrScript).Success?
    ensures var s := ClaimSupportPayoutScript(name, claimID, address, payToAddrScript).value;
            && s[2].Push?
            && |s[2].data| == |claimID| / 2
            && Reverse(s[2].data) == Hex.Decode(claimID).value
  {
    var bytes := Hex.Decode(claimID).value;
    var pk := payToAddrScript(address).value;
    var s := ClaimSupportPayoutScript(name, claimID, address, payToAddrScript).value;
    assert s == [Op(OpSupportClaim), Push(name), Push(Reverse(bytes))] + PayoutTail(pk);
    assert |bytes| == |claimID| / 2;
    ReverseReverse(bytes);
  }

  /** A claim-name script reads back as a claim on `name` with the value unchanged. */
  lemma {:induction false} NameScriptReadsBack<A, E>(name: Bytes, value: Bytes, address: A,
                                  payToAddrScript: A -> Result<Script, E>)
    requires ClaimNamePayoutScript(name, value, address, payToAddrScript).Success?
    ensures var s := ClaimNamePayoutScript(name, value, address, payToAddrScript).value;
            ParsePayout(s) == Some((ClaimName(name, value), payToAddrScript(address).value))
  {
    var pk := payToAddrScript(address).value;
    var s := ClaimNamePayoutScript(name, value, address, payToAddrScript).value;
    assert s == [Op(OpClaimName), Push(name), Push(value)] + PayoutTail(pk);
    assert Pushes(s, 1, 3) && s[5..] == pk;
  }

  /** An update script reads back as an update of `name` with the decoded
      claim id and the value unchanged. */
  lemma {:induction false} UpdateScriptReadsBack<A, E>(name: Bytes, claimID: Bytes, value: Bytes, address: A,
                                                         payToAddrScript: A -> Result<Script, E>)
    requires UpdateClaimPayoutScript(name, claimID, value, address, payToAddrScript).Success?
    ensures var s := UpdateClaimPayoutScript(name, claimID, value, address, payToAddrScript).value;
            ParsePayout(s) == Some((UpdateClaim(name, Hex.Decode(claimID).value, value), payToAddrScript(address).value))
  {
    var bytes := Hex.Decode(claimID).value;
    var pk := payToAddrScript(address).value;
    var s := UpdateClaimPayoutScript(name, claimID, value, address, payToAddrScript).value;
    assert s == [Op(OpUpdateClaim), Push(name), Push(Reverse(bytes)), Push(value)] + PayoutTail(pk);
    assert Pushes(s, 1, 4) && s[6..] == pk;
    ReverseReverse(bytes);
  }
}
