/** The on-chain side: VerifyingPaymaster.sol, slicing and re-deriving what the backend assembled. */
module OnChain {
  import opened Wrappers
  import opened Numbers
  import opened Schema
  import opened Packing

  datatype Revert = OutOfBounds | AbiDecode | InvalidSignatureLength | InvalidSignature | NotOwner | ZeroSigner

  /** ECDSA.recover: the signing address, or None where the library reverts. */
  type Recover = (Bytes32, Bytes) -> Option<Address>

  const ZERO_ADDRESS: Address := [0, 0, 0, 0, 0, 0, 0, 0, 0, 0, 0, 0, 0, 0, 0, 0, 0, 0, 0, 0]
  const PAYMASTER_VALIDATION_GAS_OFFSET: nat := 20
  const PAYMASTER_DATA_OFFSET: nat := 52
  const SIGNATURE_OFFSET: nat := PAYMASTER_DATA_OFFSET + 64

  function Uint256Word(n: nat): Bytes32 {
    ToBytes(n, 32)
  }

  /** The words of `abi.encode(...)` inside `getHash`; the calldata slice reverts on short data. */
  function GetHashWords(keccak: Keccak, op: PackedUserOp, chainId: nat, self: Address,
                        validUntil: nat, validAfter: nat): Result<seq<Bytes32>, Revert>
  {
    if |op.paymasterAndData| < PAYMASTER_DATA_OFFSET then Err(OutOfBounds)
    else
      var gasLimits := FromBytes(op.paymasterAndData[PAYMASTER_VALIDATION_GAS_OFFSET..PAYMASTER_DATA_OFFSET]);
      Ok([EncodeAddress(op.sender), Uint256Word(op.nonce), keccak(op.initCode), keccak(op.callData),
          op.accountGasLimits, Uint256Word(gasLimits), Uint256Word(op.preVerificationGas), op.gasFees,
          Uint256Word(chainId), EncodeAddress(self), Uint256Word(validUntil), Uint256Word(validAfter)])
  }

  function GetHash(keccak: Keccak, op: PackedUserOp, chainId: nat, self: Address,
                   validUntil: nat, validAfter: nat): Result<Bytes32, Revert>
  {
    var words :- GetHashWords(keccak, op, chainId, self, validUntil, validAfter);
    Ok(keccak(AbiEncode(words)))
  }

  datatype ParsedData = ParsedData(validUntil: nat, validAfter: nat, signature: Bytes)

  function ParsePaymasterAndData(data: Bytes): Result<ParsedData, Revert> {
    if |data| < SIGNATURE_OFFSET then Err(OutOfBounds)
    else
      var validUntil := FromBytes(data[PAYMASTER_DATA_OFFSET..PAYMASTER_DATA_OFFSET + 32]);
      var validAfter := FromBytes(data[PAYMASTER_DATA_OFFSET + 32..SIGNATURE_OFFSET]);
      if !FitsUint(validUntil, UINT48_MAX) || !FitsUint(validAfter, UINT48_MAX) then Err(AbiDecode)
      else Ok(ParsedData(validUntil, validAfter, data[SIGNATURE_OFFSET..]))
  }

  /** "\x19Ethereum Signed Message:\n32", the EIP-191 version 0x45 prefix for a 32-byte message. */
  const EIP191_PREFIX_32: Bytes :=
    [0x19, 69, 116, 104, 101, 114, 101, 117, 109, 32, 83, 105, 103, 110, 101, 100, 32,
     77, 101, 115, 115, 97, 103, 101, 58, 10, 51, 50]

  function ToEthSignedMessageHash(keccak: Keccak, hash: Bytes32): Bytes32 {
    keccak(EIP191_PREFIX_32 + hash)
  }

  /** The three values `_packValidationData` is given. */
  datatype ValidationData = ValidationData(sigFailed: bool, validUntil: nat, validAfter: nat)

  function ValidatePaymasterUserOp(keccak: Keccak, recover: Recover, signer: Address,
                                   op: PackedUserOp, chainId: nat, self: Address)
    : Result<ValidationData, Revert>
  {
    var parsed :- ParsePaymasterAndData(op.paymasterAndData);
    if |parsed.signature| != 64 && |parsed.signature| != 65 then Err(InvalidSignatureLength)
    else
      var inner :- GetHash(keccak, op, chainId, self, parsed.validUntil, parsed.validAfter);
      match recover(ToEthSignedMessageHash(keccak, inner), parsed.signature)
      case None => Err(InvalidSignature)
      case Some(recovered) => Ok(ValidationData(signer != recovered, parsed.validUntil, parsed.validAfter))
  }

  // ----- signer rotation

  datatype Rotation = Rotation(callerIsOwner: bool, newSigner: Address)

  predicate Accepted(r: Rotation) {
    r.callerIsOwner && r.newSigner != ZERO_ADDRESS
  }

  /** The stored signer after a history of `setVerifyingSigner` calls, refused ones included. */
  function SignerAfter(initial: Address, history: seq<Rotation>): Address {
    if history == [] then initial
    else
      var last := history[|history| - 1];
      if Accepted(last) then last.newSigner else SignerAfter(initial, history[..|history| - 1])
  }

  /** The stored signer is the newest accepted rotation, or the constructor's when none was accepted. */
  lemma {:induction false} SignerIsNewestAccepted(initial: Address, history: seq<Rotation>)
    requires initial != ZERO_ADDRESS
    ensures var s := SignerAfter(initial, history);
            && s != ZERO_ADDRESS
            && ((exists i :: 0 <= i < |history| && Accepted(history[i]) && s == history[i].newSigner
                             && forall j :: i < j < |history| ==> !Accepted(history[j]))
                || (s == initial && forall i :: 0 <= i < |history| ==> !Accepted(history[i])))
  {
    if history == [] {
    } else {
      var n := |history| - 1;
      if Accepted(history[n]) {
        assert SignerAfter(initial, history) == history[n].newSigner;
      } else {
        var front := history[..n];
        SignerIsNewestAccepted(initial, front);
        assert forall i :: 0 <= i < n ==> history[i] == front[i];
        if forall i :: 0 <= i < |front| ==> !Accepted(front[i]) {
        } else {
          var i :| 0 <= i < |front| && Accepted(front[i]) && SignerAfter(initial, front) == front[i].newSigner
                   && forall j :: i < j < |front| ==> !Accepted(front[j]);
          assert Accepted(history[i]) && forall j :: i < j < |history| ==> !Accepted(history[j]);
        }
      }
    }
  }

  lemma SignerAfterOne(initial: Address, history: seq<Rotation>, last: Rotation)
    ensures SignerAfter(initial, history + [last])
            == if Accepted(last) then last.newSigner else SignerAfter(initial, history)
  {
    assert (history + [last])[..|history|] == history;
  }

  /** Deployment: the constructor reverts on a zero signer. */
  method Deploy(self: Address, chainId: nat, verifyingSigner: Address) returns (r: Result<VerifyingPaymaster, Revert>)
    ensures r == Err(ZeroSigner) <==> verifyingSigner == ZERO_ADDRESS
    ensures r.Err? <==> verifyingSigner == ZERO_ADDRESS
    ensures r.Ok? ==> fresh(r.value) && r.value.Valid() && r.value.history == [] && r.value.self == self
                      && r.value.chainId == chainId
                      && r.value.verifyingSigner == r.value.deployedWith == verifyingSigner
  {
    if verifyingSigner == ZERO_ADDRESS {
      return Err(ZeroSigner);
    }
    var contract := new VerifyingPaymaster(self, chainId, verifyingSigner);
    return Ok(contract);
  }

  class VerifyingPaymaster {
    const self: Address
    const chainId: nat
    var verifyingSigner: Address
    /** Emitted (oldSigner, newSigner) pairs. */
    var updates: seq<(Address, Address)>
    ghost var deployedWith: Address
    ghost var history: seq<Rotation>

    ghost predicate Valid()
      reads this
    {
      && deployedWith != ZERO_ADDRESS
      && verifyingSigner == SignerAfter(deployedWith, history)
      && verifyingSigner != ZERO_ADDRESS
      && (if updates == [] then verifyingSigner == deployedWith
          else updates[0].0 == deployedWith && updates[|updates| - 1].1 == verifyingSigner)
      && forall i :: 1 <= i < |updates| ==> updates[i].0 == updates[i - 1].1
    }

    constructor (self: Address, chainId: nat, verifyingSigner: Address)
      requires verifyingSigner != ZERO_ADDRESS
      ensures Valid() && history == [] && deployedWith == this.verifyingSigner == verifyingSigner
      ensures this.self == self && this.chainId == chainId && updates == []
    {
      this.self, this.chainId := self, chainId;
      this.verifyingSigner, deployedWith := verifyingSigner, verifyingSigner;
      updates, history := [], [];
    }

    method SetVerifyingSigner(callerIsOwner: bool, newSigner: Address) returns (r: Result<(), Revert>)
      requires Valid()
      modifies this
      ensures r.Err? ==> r.error == if callerIsOwner then ZeroSigner else NotOwner
      ensures Valid() && deployedWith == old(deployedWith)
      ensures history == old(history) + [Rotation(callerIsOwner, newSigner)]
      ensures r.Ok? <==> callerIsOwner && newSigner != ZERO_ADDRESS
      ensures r.Ok? ==> verifyingSigner == newSigner && updates == old(updates) + [(old(verifyingSigner), newSigner)]
      ensures r.Err? ==> verifyingSigner == old(verifyingSigner) && updates == old(updates)
    {
      SignerAfterOne(deployedWith, history, Rotation(callerIsOwner, newSigner));
      hide SignerAfter;
      history := history + [Rotation(callerIsOwner, newSigner)];
      if !callerIsOwner {
        return Err(NotOwner);
      }
      if newSigner == ZERO_ADDRESS {
        return Err(ZeroSigner);
      }
      updates := updates + [(verifyingSigner, newSigner)];
      verifyingSigner := newSigner;
      return Ok(());
    }

    method Validate(keccak: Keccak, recover: Recover, op: PackedUserOp) returns (r: Result<ValidationData, Revert>)
      requires Valid()
      ensures r == ValidatePaymasterUserOp(keccak, recover, SignerAfter(deployedWith, history), op, chainId, self)
    {
      r := ValidatePaymasterUserOp(keccak, recover, verifyingSigner, op, chainId, self);
    }
  }
}
