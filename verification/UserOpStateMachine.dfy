/** user-op-state-machine.service.ts: every transition is one conditional UPDATE on the row. */
module UserOpStateMachine {
  import opened Wrappers
  import opened Numbers
  import opened Schema

  type OpHash = Bytes
  type Table = map<OpHash, UserOperation>

  datatype Conflict = Conflict

  const SUBMITTABLE: set<Status> := {PENDING, STUCK}
  const STICKABLE: set<Status> := {SUBMITTED}
  const RESOLVABLE: set<Status> := {SUBMITTED, STUCK}

  /** Columns an UPDATE writes; None leaves a column alone. */
  datatype Update = Update(
    status: Status,
    submittedTxHash: Option<TxHash>,
    relayerNonce: Option<nat>,
    maxFeePerGas: Option<string>,
    maxPriorityFeePerGas: Option<string>,
    signature: Option<Bytes>,
    relayerGasLimit: Option<string>,
    incrementBumpCount: bool,
    blockNumber: Option<nat>,
    gasUsed: Option<string>,
    failureReason: Option<FailureReason>)

  function StatusOnly(status: Status): Update {
    Update(status, None, None, None, None, None, None, false, None, None, None)
  }

  function Or<T>(written: Option<T>, kept: Option<T>): Option<T> {
    if written.Some? then written else kept
  }

  function Apply(row: UserOperation, u: Update): UserOperation {
    row.(status := u.status,
         submittedTxHash := Or(u.submittedTxHash, row.submittedTxHash),
         relayerNonce := Or(u.relayerNonce, row.relayerNonce),
         maxFeePerGas := Or(u.maxFeePerGas, row.maxFeePerGas),
         maxPriorityFeePerGas := Or(u.maxPriorityFeePerGas, row.maxPriorityFeePerGas),
         signature := if u.signature.Some? then u.signature.value else row.signature,
         relayerGasLimit := Or(u.relayerGasLimit, row.relayerGasLimit),
         bumpCount := if u.incrementBumpCount then row.bumpCount + 1 else row.bumpCount,
         blockNumber := Or(u.blockNumber, row.blockNumber),
         gasUsed := Or(u.gasUsed, row.gasUsed),
         failureReason := Or(u.failureReason, row.failureReason))
  }

  predicate CanMove(rows: Table, h: OpHash, from: set<Status>) {
    h in rows && rows[h].status in from
  }

  // ----- what each transition leaves in the row

  /** First submission: everything the submit call knows, signature and gas limit included. */
  function SubmittedRow(row: UserOperation, tx: Tx, signature: Bytes): UserOperation {
    row.(status := SUBMITTED, submittedTxHash := Some(TxHash(tx)), relayerNonce := Some(tx.nonce),
         maxFeePerGas := Some(Decimal(tx.maxFeePerGas)),
         maxPriorityFeePerGas := Some(Decimal(tx.maxPriorityFeePerGas)),
         relayerGasLimit := Some(Decimal(tx.gas)), signature := signature)
  }

  /** Gas-bumped resubmission: new hash and fees, one more bump, signature and gas limit kept. */
  function ResubmittedRow(row: UserOperation, tx: Tx): UserOperation {
    row.(status := SUBMITTED, submittedTxHash := Some(TxHash(tx)), relayerNonce := Some(tx.nonce),
         maxFeePerGas := Some(Decimal(tx.maxFeePerGas)),
         maxPriorityFeePerGas := Some(Decimal(tx.maxPriorityFeePerGas)),
         bumpCount := row.bumpCount + 1)
  }

  function StuckRow(row: UserOperation): UserOperation {
    row.(status := STUCK)
  }

  function ConfirmedRow(row: UserOperation, receipt: Receipt): UserOperation {
    row.(status := CONFIRMED, blockNumber := Some(receipt.blockNumber), gasUsed := Some(Decimal(receipt.gasUsed)))
  }

  function FailedRow(row: UserOperation, reason: FailureReason): UserOperation {
    row.(status := FAILED, failureReason := Some(reason))
  }

  datatype MarkSubmittedParams = MarkSubmittedParams(
    submittedTxHash: TxHash,
    relayerNonce: nat,
    maxFeePerGas: nat,
    maxPriorityFeePerGas: nat,
    relayerGasLimit: Option<nat>,
    signature: Option<Bytes>,
    isResubmission: bool)

  function FirstSubmission(tx: Tx, signature: Bytes): MarkSubmittedParams {
    MarkSubmittedParams(TxHash(tx), tx.nonce, tx.maxFeePerGas, tx.maxPriorityFeePerGas,
                        Some(tx.gas), Some(signature), false)
  }

  function Resubmission(tx: Tx): MarkSubmittedParams {
    MarkSubmittedParams(TxHash(tx), tx.nonce, tx.maxFeePerGas, tx.maxPriorityFeePerGas, None, None, true)
  }

  class UserOpStateMachineService {
    var rows: Table

    constructor ()
      ensures rows == map[]
    {
      rows := map[];
    }

    method Transition(h: OpHash, from: set<Status>, data: Update) returns (r: Result<(), Conflict>)
      modifies this
      ensures r.Ok? <==> h in old(rows) && old(rows)[h].status in from
      ensures r.Ok? ==> rows == old(rows)[h := Apply(old(rows)[h], data)]
      ensures r.Err? ==> rows == old(rows)
    {
      var count := 0;
      if h in rows && rows[h].status in from {
        rows := rows[h := Apply(rows[h], data)];
        count := 1;
      }
      if count == 0 {
        return Err(Conflict);
      }
      return Ok(());
    }

    method MarkSubmitted(h: OpHash, params: MarkSubmittedParams) returns (r: Result<(), Conflict>)
      modifies this
      ensures r.Ok? <==> h in old(rows) && old(rows)[h].status in {PENDING, STUCK}
      ensures r.Err? ==> rows == old(rows)
      ensures r.Ok? ==>
                && h in old(rows) && h in rows && rows == old(rows)[h := rows[h]]
                && rows[h] == old(rows)[h].(status := SUBMITTED,
                     submittedTxHash := Some(params.submittedTxHash), relayerNonce := Some(params.relayerNonce),
                     maxFeePerGas := Some(Decimal(params.maxFeePerGas)),
                     maxPriorityFeePerGas := Some(Decimal(params.maxPriorityFeePerGas)),
                     relayerGasLimit := rows[h].relayerGasLimit, signature := rows[h].signature,
                     bumpCount := rows[h].bumpCount)
                && rows[h].relayerGasLimit == (if params.relayerGasLimit.None? then old(rows)[h].relayerGasLimit
                                               else Some(Decimal(params.relayerGasLimit.value)))
                && rows[h].signature
                    == (if params.signature.None? then old(rows)[h].signature else params.signature.value)
                && rows[h].bumpCount == old(rows)[h].bumpCount + (if params.isResubmission then 1 else 0)
      ensures forall tx, signature :: r.Ok? && params == FirstSubmission(tx, signature)
                                  ==> rows == old(rows)[h := SubmittedRow(old(rows)[h], tx, signature)]
      ensures forall tx :: r.Ok? && params == Resubmission(tx)
                       ==> rows == old(rows)[h := ResubmittedRow(old(rows)[h], tx)]
    {
      var data := StatusOnly(SUBMITTED).(
        submittedTxHash := Some(params.submittedTxHash),
        relayerNonce := Some(params.relayerNonce),
        maxFeePerGas := Some(Decimal(params.maxFeePerGas)),
        maxPriorityFeePerGas := Some(Decimal(params.maxPriorityFeePerGas)));
      if params.signature.Some? {
        data := data.(signature := params.signature);
      }
      if params.relayerGasLimit.Some? {
        data := data.(relayerGasLimit := Some(Decimal(params.relayerGasLimit.value)));
      }
      if params.isResubmission {
        data := data.(incrementBumpCount := true);
      }
      r := Transition(h, SUBMITTABLE, data);
    }

    method MarkStuck(h: OpHash) returns (r: Result<(), Conflict>)
      modifies this
      ensures r.Ok? <==> h in old(rows) && old(rows)[h].status == SUBMITTED
      ensures rows == if r.Ok? then old(rows)[h := old(rows)[h].(status := STUCK)] else old(rows)
    {
      r := Transition(h, STICKABLE, StatusOnly(STUCK));
    }

    method MarkConfirmed(h: OpHash, receipt: Receipt) returns (r: Result<(), Conflict>)
      modifies this
      ensures r.Ok? <==> h in old(rows) && old(rows)[h].status in {SUBMITTED, STUCK}
      ensures rows == if r.Err? then old(rows)
                      else old(rows)[h := old(rows)[h].(status := CONFIRMED, blockNumber := Some(receipt.blockNumber),
                                                        gasUsed := Some(Decimal(receipt.gasUsed)))]
    {
      r := Transition(h, RESOLVABLE,
                      StatusOnly(CONFIRMED).(blockNumber := Some(receipt.blockNumber),
                                             gasUsed := Some(Decimal(receipt.gasUsed))));
    }

    method MarkFailed(h: OpHash, failureReason: FailureReason) returns (r: Result<(), Conflict>)
      modifies this
      ensures r.Ok? <==> h in old(rows) && old(rows)[h].status in {SUBMITTED, STUCK}
      ensures rows == if r.Err? then old(rows)
                      else old(rows)[h := old(rows)[h].(status := FAILED, failureReason := Some(failureReason))]
    {
      r := Transition(h, RESOLVABLE, StatusOnly(FAILED).(failureReason := Some(failureReason)));
    }
  }
}
