/**
 * The relayer as interleaved steps: relayer.service.ts `submit` and confirmation-check.processor.ts
 * `process`/`handleStuck`, cut at every `await`, over one row table, one job queue and one chain.
 */
module RelayerProtocol {
  import opened Wrappers
  import opened Numbers
  import opened Schema
  import opened Packing
  import opened GasBump
  import opened UserOpStateMachine

  type Id = nat

  datatype Config = Config(maxAttempts: nat, bumpPercent: nat)

  /** `ConfirmationCheckJobData` */
  datatype Job = Job(h: OpHash, txHash: TxHash)

  /** Where a `submit` call stands: the await it will issue next, with the locals it needs from there on. */
  datatype SubmitPc =
    | Reading
    | Estimating(userOp: PackedUserOp, entryPoint: Address)
    | Broadcasting(tx: Tx)
    | MarkingSubmitted(tx: Tx)
    | Enqueueing(tx: Tx)

  /** Where a confirmation check stands, from the queued job to the re-enqueued one. */
  datatype CheckPc =
    | Queued
    | Fetching
    | MarkingConfirmed(receipt: Receipt)
    | MarkingReverted
    | Loading
    | MarkingExhausted
    | MarkingStuck(row: UserOperation)
    | Rebroadcasting(tx: Tx)
    | Remarking(tx: Tx)
    | Reenqueueing(tx: Tx)

  datatype Outcome =
    | Completed
    | NotFound
    | NotPending(status: Status)
    | LostSubmitRace
    | LostResubmitRace
    | LostCheckUpdate
    | Threw
    | RowMissing
    | ReplacementThrew
    | Crashed

  datatype Proc =
    | Submit(h: OpHash, signature: Bytes, sub: SubmitPc)
    | Check(job: Job, chk: CheckPc)
    | Done(outcome: Outcome)

  datatype Origin = FromSubmit | Replaces(replaced: TxHash)

  /** One accepted broadcast: which op it was for, where it came from, and the transaction. */
  datatype Sent = Sent(h: OpHash, origin: Origin, tx: Tx)

  datatype Mined = Mined(tx: Tx, receipt: Receipt)

  /** What happened to one row, kept for the statements only: no step reads it. */
  datatype Audit = Audit(
    history: seq<Status>,
    firstBy: set<Id>,
    takenOverBy: set<Id>,
    stuckBy: set<Id>,
    bumpedBy: set<Id>)

  datatype State = State(
    rows: Table,
    procs: map<Id, Proc>,
    nextId: Id,
    sent: map<Id, Sent>,
    mined: map<nat, Mined>,
    calls: map<Id, OpHash>,
    audit: map<OpHash, Audit>)

  const Init := State(map[], map[], 0, map[], map[], map[], map[])

  /** What the outside world answers to one await: estimates, pending nonce, whether the receipt lookup answered. */
  datatype Env = Env(maxFeePerGas: nat, maxPriorityFeePerGas: nat, nonce: nat, estimatedGas: nat, rpcAnswers: bool)

  datatype Event =
    | Create(h: OpHash, op: SponsoredOp)
    | Call(h: OpHash, signature: Bytes)
    | Advance(id: Id, env: Env)
    | Crash(id: Id)
    | Redeliver(id: Id)
    | Mine(id: Id, receipt: Receipt)

  /** The chain's answer to `getTransactionReceipt`. */
  function ReceiptOf(mined: map<nat, Mined>, txHash: TxHash): Option<Receipt> {
    var n := txHash.tx.nonce;
    if n in mined && mined[n].tx == txHash.tx then Some(mined[n].receipt) else None
  }

  function Put(s: State, id: Id, p: Proc): State {
    s.(procs := s.procs[id := p])
  }

  function Finish(s: State, id: Id, outcome: Outcome): State {
    Put(s, id, Done(outcome))
  }

  /** `queue.add`: the agent returns and a new job waits under a fresh id. */
  function Enqueue(s: State, id: Id, job: Job): State {
    s.(procs := s.procs[id := Done(Completed)][s.nextId := Check(job, Queued)], nextId := s.nextId + 1)
  }

  function Broadcast(s: State, id: Id, sent: Sent): State {
    s.(sent := s.sent[id := sent])
  }

  function Moved(a: Audit, status: Status): Audit {
    a.(history := a.history + [status])
  }

  /** A row write together with its audit entry. */
  function Write(s: State, h: OpHash, row: UserOperation, a: Audit): State {
    s.(rows := s.rows[h := row], audit := s.audit[h := Moved(a, row.status)])
  }

  function AuditOf(s: State, h: OpHash): Audit {
    if h in s.audit then s.audit[h] else Audit([], {}, {}, {}, {})
  }

  function SubmitAudit(s: State, id: Id, h: OpHash): Audit
    requires h in s.rows
  {
    var a := AuditOf(s, h);
    if s.rows[h].status == PENDING then a.(firstBy := a.firstBy + {id})
    else a.(takenOverBy := a.takenOverBy + {id})
  }

  function StuckAudit(s: State, id: Id, h: OpHash): Audit {
    AuditOf(s, h).(stuckBy := AuditOf(s, h).stuckBy + {id})
  }

  function BumpAudit(s: State, id: Id, h: OpHash): Audit {
    AuditOf(s, h).(bumpedBy := AuditOf(s, h).bumpedBy + {id})
  }

  // ----- submit

  function StepSubmit(s: State, id: Id, h: OpHash, signature: Bytes, pc: SubmitPc, env: Env): State {
    match pc
    case Reading =>
      if h !in s.rows then Finish(s, id, NotFound)
      else if s.rows[h].status != PENDING then Finish(s, id, NotPending(s.rows[h].status))
      else
        var built := BuildPackedUserOp(s.rows[h].op, signature);
        if built.Err? then Finish(s, id, Threw)
        else Put(s, id, Submit(h, signature, Estimating(built.value, s.rows[h].op.entryPoint)))
    case Estimating(userOp, entryPoint) =>
      var tx := Tx(userOp, entryPoint, env.nonce, env.estimatedGas * 120 / 100,
                   env.maxFeePerGas, env.maxPriorityFeePerGas);
      Put(s, id, Submit(h, signature, Broadcasting(tx)))
    case Broadcasting(tx) =>
      Put(Broadcast(s, id, Sent(h, FromSubmit, tx)), id, Submit(h, signature, MarkingSubmitted(tx)))
    case MarkingSubmitted(tx) =>
      if !CanMove(s.rows, h, SUBMITTABLE) then Finish(s, id, LostSubmitRace)
      else
        Put(Write(s, h, SubmittedRow(s.rows[h], tx, signature), SubmitAudit(s, id, h)), id,
            Submit(h, signature, Enqueueing(tx)))
    case Enqueueing(tx) =>
      Enqueue(s, id, Job(h, TxHash(tx)))
  }

  // ----- process and handleStuck

  /** The same-nonce replacement `handleStuck` builds from the row it read; Err where the code throws. */
  function Replacement(cfg: Config, row: UserOperation): Result<Tx, Error> {
    if row.maxFeePerGas.None? || row.maxPriorityFeePerGas.None? || row.relayerNonce.None? || row.relayerGasLimit.None?
    then Err(Syntax(SyntaxError))
    else
      var maxFeePerGas :- ReadColumn(row.maxFeePerGas.value);
      var maxPriorityFeePerGas :- ReadColumn(row.maxPriorityFeePerGas.value);
      var userOp :- BuildPackedUserOp(row.op, row.signature);
      var gas :- ReadColumn(row.relayerGasLimit.value);
      Ok(Tx(userOp, row.op.entryPoint, row.relayerNonce.value, gas,
            Bump(cfg.bumpPercent, maxFeePerGas), Bump(cfg.bumpPercent, maxPriorityFeePerGas)))
  }

  function StepCheck(cfg: Config, s: State, id: Id, job: Job, pc: CheckPc, env: Env): State {
    match pc
    case Queued => Put(s, id, Check(job, Fetching))
    case Fetching =>
      var receipt := if env.rpcAnswers then ReceiptOf(s.mined, job.txHash) else None;
      if receipt.None? then Put(s, id, Check(job, Loading))
      else if receipt.value.success then Put(s, id, Check(job, MarkingConfirmed(receipt.value)))
      else Put(s, id, Check(job, MarkingReverted))
    case MarkingConfirmed(receipt) =>
      if !CanMove(s.rows, job.h, RESOLVABLE) then Finish(s, id, LostCheckUpdate)
      else Finish(Write(s, job.h, ConfirmedRow(s.rows[job.h], receipt), AuditOf(s, job.h)), id, Completed)
    case MarkingReverted =>
      if !CanMove(s.rows, job.h, RESOLVABLE) then Finish(s, id, LostCheckUpdate)
      else Finish(Write(s, job.h, FailedRow(s.rows[job.h], TransactionReverted), AuditOf(s, job.h)), id, Completed)
    case Loading =>
      if job.h !in s.rows then Finish(s, id, RowMissing)
      else if s.rows[job.h].bumpCount >= cfg.maxAttempts then Put(s, id, Check(job, MarkingExhausted))
      else Put(s, id, Check(job, MarkingStuck(s.rows[job.h])))
    case MarkingExhausted =>
      if !CanMove(s.rows, job.h, RESOLVABLE) then Finish(s, id, LostCheckUpdate)
      else Finish(Write(s, job.h, FailedRow(s.rows[job.h], ExceededMaxBumps(cfg.maxAttempts)), AuditOf(s, job.h)),
                  id, Completed)
    case MarkingStuck(row) =>
      if !CanMove(s.rows, job.h, STICKABLE) then Finish(s, id, LostCheckUpdate)
      else
        var s' := Write(s, job.h, StuckRow(s.rows[job.h]), StuckAudit(s, id, job.h));
        var tx := Replacement(cfg, row);
        if tx.Err? then Finish(s', id, ReplacementThrew) else Put(s', id, Check(job, Rebroadcasting(tx.value)))
    case Rebroadcasting(tx) =>
      Put(Broadcast(s, id, Sent(job.h, Replaces(job.txHash), tx)), id, Check(job, Remarking(tx)))
    case Remarking(tx) =>
      if !CanMove(s.rows, job.h, SUBMITTABLE) then Finish(s, id, LostResubmitRace)
      else
        Put(Write(s, job.h, ResubmittedRow(s.rows[job.h], tx), BumpAudit(s, id, job.h)), id,
            Check(job, Reenqueueing(tx)))
    case Reenqueueing(tx) =>
      Enqueue(s, id, Job(job.h, TxHash(tx)))
  }

  // ----- runs

  /** One event; an event that is not enabled leaves the state alone. */
  function Step(cfg: Config, s: State, e: Event): State {
    match e
    case Create(h, op) =>
      if h in s.rows then s
      else s.(rows := s.rows[h := NewRow(op)], audit := s.audit[h := Audit([PENDING], {}, {}, {}, {})])
    case Call(h, signature) =>
      s.(procs := s.procs[s.nextId := Submit(h, signature, Reading)], nextId := s.nextId + 1,
         calls := s.calls[s.nextId := h])
    case Advance(id, env) =>
      if id !in s.procs then s
      else (match s.procs[id]
            case Submit(h, signature, pc) => StepSubmit(s, id, h, signature, pc, env)
            case Check(job, pc) => StepCheck(cfg, s, id, job, pc, env)
            case Done(_) => s)
    case Crash(id) =>
      if id in s.procs && !s.procs[id].Done? then Finish(s, id, Crashed) else s
    case Redeliver(id) =>
      if id in s.procs && s.procs[id].Check?
      then s.(procs := s.procs[s.nextId := Check(s.procs[id].job, Queued)], nextId := s.nextId + 1)
      else s
    case Mine(id, receipt) =>
      if id in s.sent && s.sent[id].tx.nonce !in s.mined
      then s.(mined := s.mined[s.sent[id].tx.nonce := Mined(s.sent[id].tx, receipt)])
      else s
  }

  function Run(cfg: Config, s: State, events: seq<Event>): State {
    if events == [] then s
    else Step(cfg, Run(cfg, s, events[..|events| - 1]), events[|events| - 1])
  }

  /** At-most-once job delivery: the queue never hands the same job to a second worker. */
  predicate AtMostOnce(events: seq<Event>) {
    forall i :: 0 <= i < |events| ==> !events[i].Redeliver?
  }
}
