/** The `user_operations` row, the structs sent on chain, and the values they share. */
module Schema {
  import opened Wrappers
  import opened Numbers

  /** The v0.7 on-chain struct: gas fields packed pairwise into 32 bytes. */
  datatype PackedUserOp = PackedUserOp(
    sender: Address,
    nonce: nat,
    initCode: Bytes,
    callData: Bytes,
    accountGasLimits: Bytes32,
    preVerificationGas: nat,
    gasFees: Bytes32,
    paymasterAndData: Bytes,
    signature: Bytes)

  /** The relayer's own outer `handleOps` transaction. */
  datatype Tx = Tx(
    userOp: PackedUserOp,
    entryPoint: Address,
    nonce: nat,
    gas: nat,
    maxFeePerGas: nat,
    maxPriorityFeePerGas: nat)

  /** A transaction hash, kept symbolic: a free constructor, so equal hashes mean equal transactions. */
  datatype TxHash = TxHash(tx: Tx)

  datatype Receipt = Receipt(success: bool, blockNumber: nat, gasUsed: nat)

  datatype Status = PENDING | SUBMITTED | CONFIRMED | FAILED | STUCK

  datatype FailureReason =
    | TransactionReverted
    | ExceededMaxBumps(maxAttempts: nat)

  /** The columns written once, when the operation is sponsored. Amounts are decimal strings. */
  datatype SponsoredOp = SponsoredOp(
    chainId: nat,
    entryPoint: Address,
    sender: Address,
    nonce: string,
    initCode: Bytes,
    callData: Bytes,
    callGasLimit: string,
    verificationGasLimit: string,
    preVerificationGas: string,
    opMaxFeePerGas: string,
    opMaxPriorityFeePerGas: string,
    paymasterAndData: Bytes)

  datatype UserOperation = UserOperation(
    op: SponsoredOp,
    signature: Bytes,
    status: Status,
    submittedTxHash: Option<TxHash>,
    relayerNonce: Option<nat>,
    relayerGasLimit: Option<string>,
    maxFeePerGas: Option<string>,
    maxPriorityFeePerGas: Option<string>,
    bumpCount: nat,
    blockNumber: Option<nat>,
    gasUsed: Option<string>,
    failureReason: Option<FailureReason>)

  /** A freshly created row: PENDING, unsigned, every relayer column at its default. */
  function NewRow(op: SponsoredOp): UserOperation {
    UserOperation(op, [], PENDING, None, None, None, None, None, 0, None, None, None)
  }
}
