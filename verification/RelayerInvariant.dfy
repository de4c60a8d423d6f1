/** The inductive invariant of the relayer: one confirmation token per operation, and what it protects. */
module RelayerInvariant {
  import opened Wrappers
  import opened Numbers
  import opened Schema
  import opened Packing
  import opened GasBump
  import opened UserOpStateMachine
  import opened RelayerProtocol

  /**
   * The confirmation token an agent holds: a queued or undecided check of its job, or the job an agent is
   * about to enqueue after its `markSubmitted` went through.
   */
  function Token(p: Proc): Option<Job> {
    match p
    case Submit(h, _, Enqueueing(tx)) => Some(Job(h, TxHash(tx)))
    case Check(job, Reenqueueing(tx)) => Some(Job(job.h, TxHash(tx)))
    case Check(job, Rebroadcasting(_)) => None
    case Check(job, Remarking(_)) => None
    case Check(job, _) => Some(job)
    case _ => None
  }

  ghost predicate Holds(s: State, i: Id, h: OpHash) {
    i in s.procs && Token(s.procs[i]).Some? && Token(s.procs[i]).value.h == h
  }

  /** `tx` carries the stored operation, signed as given. */
  ghost predicate CarriesOp(rows: Table, h: OpHash, signature: Bytes, tx: Tx) {
    && h in rows
    && BuildPackedUserOp(rows[h].op, signature) == Ok(tx.userOp)
    && tx.entryPoint == rows[h].op.entryPoint
  }

  /** A fee replacement of `old`: same relayer nonce, both fees bumped once. */
  ghost predicate Bumps(cfg: Config, replaced: Tx, tx: Tx) {
    && tx.nonce == replaced.nonce
    && tx.maxFeePerGas == Bump(cfg.bumpPercent, replaced.maxFeePerGas)
    && tx.maxPriorityFeePerGas == Bump(cfg.bumpPercent, replaced.maxPriorityFeePerGas)
  }

  ghost predicate TokenOk(s: State, i: Id)
    requires i in s.procs
  {
    Token(s.procs[i]).Some? ==>
      var job := Token(s.procs[i]).value;
      && job.h in s.rows
      && s.rows[job.h].status == SUBMITTED
      && s.rows[job.h].submittedTxHash == Some(job.txHash)
  }

  ghost predicate SubmitOk(s: State, h: OpHash, signature: Bytes, pc: SubmitPc) {
    match pc
    case Reading => true
    case Estimating(userOp, entryPoint) =>
      && h in s.rows
      && BuildPackedUserOp(s.rows[h].op, signature) == Ok(userOp)
      && entryPoint == s.rows[h].op.entryPoint
    case Broadcasting(tx) => CarriesOp(s.rows, h, signature, tx)
    case MarkingSubmitted(tx) => CarriesOp(s.rows, h, signature, tx)
    case Enqueueing(tx) => CarriesOp(s.rows, h, signature, tx)
  }

  ghost predicate CheckOk(cfg: Config, s: State, job: Job, pc: CheckPc) {
    && job.h in s.rows
    && s.rows[job.h].status != PENDING
    && match pc
       case MarkingConfirmed(receipt) => receipt.success && ReceiptOf(s.mined, job.txHash) == Some(receipt)
       case MarkingReverted =>
         ReceiptOf(s.mined, job.txHash).Some? && !ReceiptOf(s.mined, job.txHash).value.success
       case MarkingExhausted => s.rows[job.h].bumpCount >= cfg.maxAttempts
       case MarkingStuck(row) => row == s.rows[job.h] && row.bumpCount < cfg.maxAttempts
       case Rebroadcasting(tx) => Bumps(cfg, job.txHash.tx, tx) && CarriesOp(s.rows, job.h, tx.userOp.signature, tx)
       case Remarking(tx) => Bumps(cfg, job.txHash.tx, tx) && CarriesOp(s.rows, job.h, tx.userOp.signature, tx)
       case Reenqueueing(tx) => Bumps(cfg, job.txHash.tx, tx) && CarriesOp(s.rows, job.h, tx.userOp.signature, tx)
       case _ => true
  }

  ghost predicate ProcOk(cfg: Config, s: State, p: Proc) {
    match p
    case Submit(h, signature, pc) => SubmitOk(s, h, signature, pc)
    case Check(job, pc) => CheckOk(cfg, s, job, pc)
    case Done(o) => o != LostCheckUpdate && o != RowMissing && o != ReplacementThrew
  }

  /** The relayer columns of a submitted row describe the transaction whose hash it stores. */
  ghost predicate Replaceable(cfg: Config, row: UserOperation) {
    && row.submittedTxHash.Some?
    && StoresTx(row, row.submittedTxHash.value.tx)
    && Replacement(cfg, row).Ok?
    && Bumps(cfg, row.submittedTxHash.value.tx, Replacement(cfg, row).value)
  }

  ghost predicate StoresTx(row: UserOperation, tx: Tx) {
    && row.relayerNonce == Some(tx.nonce)
    && row.maxFeePerGas == Some(Decimal(tx.maxFeePerGas))
    && row.maxPriorityFeePerGas == Some(Decimal(tx.maxPriorityFeePerGas))
  }

  /** A final status is backed by the receipt of exactly the stored hash, or by an exhausted bump budget. */
  ghost predicate Evidence(cfg: Config, mined: map<nat, Mined>, row: UserOperation) {
    && (row.status == CONFIRMED ==>
          && row.submittedTxHash.Some?
          && var receipt := ReceiptOf(mined, row.submittedTxHash.value);
          && receipt.Some? && receipt.value.success
          && row.blockNumber == Some(receipt.value.blockNumber)
          && row.gasUsed == Some(Decimal(receipt.value.gasUsed)))
    && (row.status == FAILED ==>
          && row.submittedTxHash.Some? && row.failureReason.Some?
          && match row.failureReason.value
             case TransactionReverted =>
               var receipt := ReceiptOf(mined, row.submittedTxHash.value);
               receipt.Some? && !receipt.value.success
             case ExceededMaxBumps(m) => m == cfg.maxAttempts == row.bumpCount)
  }

  ghost predicate RowOk(cfg: Config, mined: map<nat, Mined>, row: UserOperation) {
    && row.bumpCount <= cfg.maxAttempts
    && (row.status == STUCK ==> row.bumpCount < cfg.maxAttempts)
    && (row.status == PENDING ==> row.bumpCount == 0)
    && (row.status != PENDING ==> Replaceable(cfg, row))
    && Evidence(cfg, mined, row)
  }

  ghost predicate OneToken(s: State) {
    forall i, j, h :: Holds(s, i, h) && Holds(s, j, h) ==> i == j
  }

  ghost predicate Core(cfg: Config, s: State) {
    && (forall i :: i in s.procs ==> i < s.nextId)
    && OneToken(s)
    && (forall i :: i in s.procs ==> TokenOk(s, i))
    && (forall i :: i in s.procs ==> ProcOk(cfg, s, s.procs[i]))
    && (forall h :: h in s.rows ==> RowOk(cfg, s.mined, s.rows[h]))
  }

  // ----- columns

  lemma ReadsBack(n: nat)
    ensures ReadColumn(Decimal(n)) == Ok(n)
  {
    DecimalRoundTrip(n);
  }

  lemma FirstSubmissionReplaceable(cfg: Config, row: UserOperation, tx: Tx, signature: Bytes)
    requires BuildPackedUserOp(row.op, signature) == Ok(tx.userOp)
    ensures Replaceable(cfg, SubmittedRow(row, tx, signature))
  {
    hide BuildPackedUserOp, ReadColumn;
    ReadsBack(tx.maxFeePerGas);
    ReadsBack(tx.maxPriorityFeePerGas);
    ReadsBack(tx.gas);
  }

  lemma ResubmissionReplaceable(cfg: Config, row: UserOperation, tx: Tx)
    requires Replaceable(cfg, row)
    ensures Replaceable(cfg, ResubmittedRow(row, tx))
  {
    hide BuildPackedUserOp, ReadColumn;
    ReadsBack(tx.maxFeePerGas);
    ReadsBack(tx.maxPriorityFeePerGas);
  }

  /** Status writes leave the replacement alone; it carries the stored operation. */
  lemma ReplacementOfStored(cfg: Config, row: UserOperation)
    requires Replaceable(cfg, row)
    ensures BuildPackedUserOp(row.op, row.signature) == Ok(Replacement(cfg, row).value.userOp)
    ensures Replacement(cfg, row).value.entryPoint == row.op.entryPoint
    ensures forall tx :: BuildPackedUserOp(row.op, row.signature) == Ok(tx) ==> tx.signature == row.signature
  {
    hide ReadColumn;
  }

  /** Only the columns `handleStuck` reads matter to the replacement. */
  lemma StatusKeepsReplaceable(cfg: Config, row: UserOperation, row': UserOperation)
    requires Replaceable(cfg, row)
    requires row' == row.(status := row'.status, blockNumber := row'.blockNumber, gasUsed := row'.gasUsed,
                          failureReason := row'.failureReason)
    ensures Replaceable(cfg, row') && Replacement(cfg, row') == Replacement(cfg, row)
  {
    hide BuildPackedUserOp, ReadColumn;
  }

  /** A bigint column that holds a number. */
  predicate Readable(column: Option<string>) {
    column.Some? && ReadColumn(column.value).Ok?
  }

  /** Everything `handleStuck` needs can be read from the row. */
  predicate Rebuildable(row: UserOperation) {
    && row.relayerNonce.Some? && Readable(row.relayerGasLimit)
    && Readable(row.maxFeePerGas) && Readable(row.maxPriorityFeePerGas)
    && BuildPackedUserOp(row.op, row.signature).Ok?
  }

  /** The row's own nonce, gas limit, struct and target, and each stored fee bumped once. */
  predicate IsReplacement(cfg: Config, row: UserOperation, tx: Tx)
    requires Rebuildable(row)
  {
    && tx.nonce == row.relayerNonce.value && tx.entryPoint == row.op.entryPoint
    && ReadColumn(row.relayerGasLimit.value) == Ok(tx.gas)
    && BuildPackedUserOp(row.op, row.signature) == Ok(tx.userOp)
    && tx.maxFeePerGas == Bump(cfg.bumpPercent, ReadColumn(row.maxFeePerGas.value).value)
    && tx.maxPriorityFeePerGas == Bump(cfg.bumpPercent, ReadColumn(row.maxPriorityFeePerGas.value).value)
  }

  lemma ReplacementMeans(cfg: Config, row: UserOperation)
    ensures Replacement(cfg, row).Ok? <==> Rebuildable(row)
    ensures Replacement(cfg, row).Ok? ==> IsReplacement(cfg, row, Replacement(cfg, row).value)
  {
    hide ReadColumn, BuildPackedUserOp, Bump;
  }

  /**
   * Store, read back, replace: what `handleStuck` builds from the row a submit wrote is the very transaction
   * that submit broadcast, each fee bumped once.
   */
  lemma ReplacementOfSubmitted(cfg: Config, row: UserOperation, tx: Tx, signature: Bytes)
    requires BuildPackedUserOp(row.op, signature) == Ok(tx.userOp) && tx.entryPoint == row.op.entryPoint
    ensures Replacement(cfg, StuckRow(SubmittedRow(row, tx, signature)))
         == Ok(tx.(maxFeePerGas := Bump(cfg.bumpPercent, tx.maxFeePerGas),
                   maxPriorityFeePerGas := Bump(cfg.bumpPercent, tx.maxPriorityFeePerGas)))
  {
    hide BuildPackedUserOp, ReadColumn, Bump;
    ReadsBack(tx.maxFeePerGas);
    ReadsBack(tx.maxPriorityFeePerGas);
    ReadsBack(tx.gas);
  }

  // ----- three shapes of step

  /** The agent moves on; the table and the queue stay. */
  lemma LocalStep(cfg: Config, s: State, id: Id, p: Proc)
    requires Core(cfg, s) && id in s.procs
    requires ProcOk(cfg, s, p)
    requires Token(p) == Token(s.procs[id]) || Token(p) == None
    ensures Core(cfg, Put(s, id, p))
  {
    hide RowOk, CarriesOp, Replaceable, BuildPackedUserOp;
    var s' := Put(s, id, p);
    forall i, j, h | Holds(s', i, h) && Holds(s', j, h) ensures i == j {
      assert Holds(s, i, h) && Holds(s, j, h);
    }
    forall i | i in s'.procs ensures TokenOk(s', i) && ProcOk(cfg, s', s'.procs[i]) {
      assert i in s.procs;
      assert TokenOk(s, i) && ProcOk(cfg, s, s.procs[i]);
    }
  }

  /**
   * The agent rewrites row `h`: either it held the token and gives it up, or nobody held one and it takes
   * the new one, which is then for the hash it stored.
   */
  lemma RowStep(cfg: Config, s: State, id: Id, h: OpHash, row: UserOperation, a: Audit, p: Proc)
    requires Core(cfg, s) && id in s.procs && h in s.rows
    requires RowOk(cfg, s.mined, row) && row.op == s.rows[h].op && row.status != PENDING
    requires ProcOk(cfg, Put(Write(s, h, row, a), id, p), p)
    requires || (Holds(s, id, h) && Token(p) == None)
             || (s.rows[h].status != SUBMITTED && row.status == SUBMITTED && row.submittedTxHash.Some?
                 && Token(p) == Some(Job(h, row.submittedTxHash.value)))
    ensures Core(cfg, Put(Write(s, h, row, a), id, p))
  {
    hide RowOk, Replaceable, BuildPackedUserOp, ProcOk, CarriesOp;
    var s' := Put(Write(s, h, row, a), id, p);
    forall i | i in s.procs && i != id && Token(s.procs[i]).Some? ensures Token(s.procs[i]).value.h != h {
      assert TokenOk(s, i);
      if Holds(s, id, h) {
        assert Holds(s, i, Token(s.procs[i]).value.h);
      }
    }
    forall i, j, g | Holds(s', i, g) && Holds(s', j, g) ensures i == j {
      assert i != id ==> Holds(s, i, g);
      assert j != id ==> Holds(s, j, g);
    }
    forall i | i in s'.procs ensures TokenOk(s', i) && ProcOk(cfg, s', s'.procs[i]) {
      if i != id {
        assert TokenOk(s, i);
        WriteKeepsProc(cfg, s, h, row, a, s.procs[i]);
        SameTables(cfg, Write(s, h, row, a), s', s.procs[i]);
      }
    }
  }

  /** An agent that holds no token of the rewritten row stays where the invariant allows it to be. */
  lemma WriteKeepsProc(cfg: Config, s: State, h: OpHash, row: UserOperation, a: Audit, q: Proc)
    requires ProcOk(cfg, s, q) && h in s.rows && row.op == s.rows[h].op && row.status != PENDING
    requires Token(q).Some? ==> Token(q).value.h != h
    ensures ProcOk(cfg, Write(s, h, row, a), q)
  {
    hide BuildPackedUserOp;
  }

  lemma SameTables(cfg: Config, s: State, b: State, q: Proc)
    requires ProcOk(cfg, s, q) && b.rows == s.rows && b.mined == s.mined
    ensures ProcOk(cfg, b, q)
  {
    hide BuildPackedUserOp;
  }

  /** The token passes from the agent to the job it enqueues. */
  lemma EnqueueStep(cfg: Config, s: State, id: Id, job: Job)
    requires Core(cfg, s) && id in s.procs
    requires Token(s.procs[id]) == Some(job)
    ensures Core(cfg, Enqueue(s, id, job))
  {
    hide RowOk, Replaceable, CarriesOp, BuildPackedUserOp;
    var s' := Enqueue(s, id, job);
    assert TokenOk(s, id);
    assert s.nextId !in s.procs;
    forall i, j, h | Holds(s', i, h) && Holds(s', j, h) ensures i == j {
      assert Holds(s, if i == s.nextId then id else i, h);
      assert Holds(s, if j == s.nextId then id else j, h);
    }
    forall i | i in s'.procs ensures TokenOk(s', i) && ProcOk(cfg, s', s'.procs[i]) {
      if i != id && i != s.nextId {
        assert TokenOk(s, i) && ProcOk(cfg, s, s.procs[i]);
      }
    }
  }

  // ----- every event keeps the invariant

  lemma SubmitKeepsCore(cfg: Config, s: State, id: Id, h: OpHash, signature: Bytes, pc: SubmitPc, env: Env)
    requires Core(cfg, s) && id in s.procs && s.procs[id] == Submit(h, signature, pc)
    ensures Core(cfg, StepSubmit(s, id, h, signature, pc, env))
  {
    assert ProcOk(cfg, s, s.procs[id]);
    match pc
    case Reading =>
      ReadKeepsCore(cfg, s, id, h, signature, env);
    case Estimating(userOp, entryPoint) =>
      LocalStep(cfg, s, id, StepSubmit(s, id, h, signature, pc, env).procs[id]);
    case Broadcasting(tx) =>
      BroadcastKeepsCore(cfg, s, id, Sent(h, FromSubmit, tx), Submit(h, signature, MarkingSubmitted(tx)));
    case MarkingSubmitted(tx) =>
      if CanMove(s.rows, h, SUBMITTABLE) {
        MarkSubmittedKeepsCore(cfg, s, id, h, signature, tx);
      } else {
        LocalStep(cfg, s, id, Done(LostSubmitRace));
      }
    case Enqueueing(tx) =>
      EnqueueStep(cfg, s, id, Job(h, TxHash(tx)));
  }

  lemma ReadKeepsCore(cfg: Config, s: State, id: Id, h: OpHash, signature: Bytes, env: Env)
    requires Core(cfg, s) && id in s.procs && s.procs[id] == Submit(h, signature, Reading)
    ensures Core(cfg, StepSubmit(s, id, h, signature, Reading, env))
  {
    hide BuildPackedUserOp, Core;
    LocalStep(cfg, s, id, StepSubmit(s, id, h, signature, Reading, env).procs[id]);
  }

  lemma BroadcastKeepsCore(cfg: Config, s: State, id: Id, sent: Sent, p: Proc)
    requires Core(cfg, s) && id in s.procs
    requires ProcOk(cfg, s, p) && Token(p) == None
    ensures Core(cfg, Put(Broadcast(s, id, sent), id, p))
  {
    hide ProcOk;
    LocalStep(cfg, s, id, p);
    SameButSent(cfg, Put(s, id, p), Put(Broadcast(s, id, sent), id, p));
  }

  lemma MarkSubmittedKeepsCore(cfg: Config, s: State, id: Id, h: OpHash, signature: Bytes, tx: Tx)
    requires Core(cfg, s) && id in s.procs && s.procs[id] == Submit(h, signature, MarkingSubmitted(tx))
    requires CanMove(s.rows, h, SUBMITTABLE)
    ensures Core(cfg, Put(Write(s, h, SubmittedRow(s.rows[h], tx, signature), SubmitAudit(s, id, h)), id,
                          Submit(h, signature, Enqueueing(tx))))
  {
    assert ProcOk(cfg, s, s.procs[id]);
    var row := s.rows[h];
    assert RowOk(cfg, s.mined, row);
    FirstSubmissionReplaceable(cfg, row, tx, signature);
    hide BuildPackedUserOp, Replaceable, Core, Decimal;
    RowStep(cfg, s, id, h, SubmittedRow(row, tx, signature), SubmitAudit(s, id, h),
            Submit(h, signature, Enqueueing(tx)));
  }

  lemma SameButSent(cfg: Config, s: State, b: State)
    requires Core(cfg, s) && b == s.(sent := b.sent)
    ensures Core(cfg, b)
  {
    hide RowOk, BuildPackedUserOp;
    forall i, j, h | Holds(b, i, h) && Holds(b, j, h) ensures i == j {
      assert Holds(s, i, h) && Holds(s, j, h);
    }
    forall i | i in b.procs ensures TokenOk(b, i) && ProcOk(cfg, b, b.procs[i]) {
      assert TokenOk(s, i) && ProcOk(cfg, s, s.procs[i]);
    }
  }

  lemma CheckKeepsCore(cfg: Config, s: State, id: Id, job: Job, pc: CheckPc, env: Env)
    requires Core(cfg, s) && id in s.procs && s.procs[id] == Check(job, pc)
    ensures Core(cfg, StepCheck(cfg, s, id, job, pc, env))
  {
    hide Core, StepCheck;
    match pc
    case Fetching => FetchKeepsCore(cfg, s, id, job, env);
    case Loading => LoadKeepsCore(cfg, s, id, job, env);
    case MarkingConfirmed(_) => ResolvesKeepCore(cfg, s, id, job, pc, env);
    case MarkingReverted => ResolvesKeepCore(cfg, s, id, job, pc, env);
    case MarkingExhausted => ResolvesKeepCore(cfg, s, id, job, pc, env);
    case MarkingStuck(row) => StickStepKeepsCore(cfg, s, id, job, row, env);
    case Remarking(tx) => RemarkStepKeepsCore(cfg, s, id, job, tx, env);
    case _ => MoveOnKeepsCore(cfg, s, id, job, pc, env);
  }

  lemma StickStepKeepsCore(cfg: Config, s: State, id: Id, job: Job, row: UserOperation, env: Env)
    requires Core(cfg, s) && id in s.procs && s.procs[id] == Check(job, MarkingStuck(row))
    ensures Core(cfg, StepCheck(cfg, s, id, job, MarkingStuck(row), env))
  {
    hide Core, Replacement, Write, Put;
    StickKeepsCore(cfg, s, id, job, row);
  }

  lemma RemarkStepKeepsCore(cfg: Config, s: State, id: Id, job: Job, tx: Tx, env: Env)
    requires Core(cfg, s) && id in s.procs && s.procs[id] == Check(job, Remarking(tx))
    ensures Core(cfg, StepCheck(cfg, s, id, job, Remarking(tx), env))
  {
    assert ProcOk(cfg, s, s.procs[id]);
    hide Core, Write, CarriesOp, Bumps;
    if CanMove(s.rows, job.h, SUBMITTABLE) {
      RemarkKeepsCore(cfg, s, id, job, tx);
    } else {
      LocalStep(cfg, s, id, Done(LostResubmitRace));
    }
  }

  lemma MoveOnKeepsCore(cfg: Config, s: State, id: Id, job: Job, pc: CheckPc, env: Env)
    requires Core(cfg, s) && id in s.procs && s.procs[id] == Check(job, pc)
    requires pc.Queued? || pc.Rebroadcasting? || pc.Reenqueueing?
    ensures Core(cfg, StepCheck(cfg, s, id, job, pc, env))
  {
    assert ProcOk(cfg, s, s.procs[id]);
    hide Core, CarriesOp, Bumps, Replacement;
    match pc
    case Queued => LocalStep(cfg, s, id, Check(job, Fetching));
    case Rebroadcasting(tx) =>
      BroadcastKeepsCore(cfg, s, id, Sent(job.h, Replaces(job.txHash), tx), Check(job, Remarking(tx)));
    case Reenqueueing(tx) => EnqueueStep(cfg, s, id, Job(job.h, TxHash(tx)));
  }

  /** Three ways to a final status, each with its evidence. */
  lemma ResolvesKeepCore(cfg: Config, s: State, id: Id, job: Job, pc: CheckPc, env: Env)
    requires Core(cfg, s) && id in s.procs && s.procs[id] == Check(job, pc)
    requires pc.MarkingConfirmed? || pc.MarkingReverted? || pc.MarkingExhausted?
    ensures Core(cfg, StepCheck(cfg, s, id, job, pc, env))
  {
    assert ProcOk(cfg, s, s.procs[id]) && TokenOk(s, id);
    assert RowOk(cfg, s.mined, s.rows[job.h]);
    hide Core, Replaceable;
    match pc
    case MarkingConfirmed(receipt) => ResolveKeepsCore(cfg, s, id, job, ConfirmedRow(s.rows[job.h], receipt));
    case MarkingReverted => ResolveKeepsCore(cfg, s, id, job, FailedRow(s.rows[job.h], TransactionReverted));
    case MarkingExhausted =>
      ResolveKeepsCore(cfg, s, id, job, FailedRow(s.rows[job.h], ExceededMaxBumps(cfg.maxAttempts)));
  }

  lemma FetchKeepsCore(cfg: Config, s: State, id: Id, job: Job, env: Env)
    requires Core(cfg, s) && id in s.procs && s.procs[id] == Check(job, Fetching)
    ensures Core(cfg, StepCheck(cfg, s, id, job, Fetching, env))
  {
    assert ProcOk(cfg, s, s.procs[id]);
    hide Core, BuildPackedUserOp;
    LocalStep(cfg, s, id, StepCheck(cfg, s, id, job, Fetching, env).procs[id]);
  }

  lemma LoadKeepsCore(cfg: Config, s: State, id: Id, job: Job, env: Env)
    requires Core(cfg, s) && id in s.procs && s.procs[id] == Check(job, Loading)
    ensures Core(cfg, StepCheck(cfg, s, id, job, Loading, env))
  {
    hide Replacement, Evidence;
    assert ProcOk(cfg, s, s.procs[id]);
    hide Core, BuildPackedUserOp;
    LocalStep(cfg, s, id, StepCheck(cfg, s, id, job, Loading, env).procs[id]);
  }

  /** A final status is written by the token holder, which then stops. */
  lemma ResolveKeepsCore(cfg: Config, s: State, id: Id, job: Job, row: UserOperation)
    requires Core(cfg, s) && Holds(s, id, job.h) && TokenOk(s, id)
    requires row == s.rows[job.h].(status := row.status, blockNumber := row.blockNumber, gasUsed := row.gasUsed,
                                   failureReason := row.failureReason)
    requires row.status in {CONFIRMED, FAILED} && Evidence(cfg, s.mined, row)
    ensures Core(cfg, Finish(Write(s, job.h, row, AuditOf(s, job.h)), id, Completed))
  {
    assert RowOk(cfg, s.mined, s.rows[job.h]);
    StatusKeepsReplaceable(cfg, s.rows[job.h], row);
    hide Core, Evidence, Replaceable, BuildPackedUserOp;
    RowStep(cfg, s, id, job.h, row, AuditOf(s, job.h), Done(Completed));
  }

  lemma StickKeepsCore(cfg: Config, s: State, id: Id, job: Job, row: UserOperation)
    requires Core(cfg, s) && id in s.procs && s.procs[id] == Check(job, MarkingStuck(row))
    ensures CanMove(s.rows, job.h, STICKABLE) && Replacement(cfg, row).Ok?
    ensures Core(cfg, Put(Write(s, job.h, StuckRow(s.rows[job.h]), StuckAudit(s, id, job.h)), id,
                          Check(job, Rebroadcasting(Replacement(cfg, row).value))))
  {
    assert ProcOk(cfg, s, s.procs[id]) && TokenOk(s, id);
    assert RowOk(cfg, s.mined, row);
    var stuck := StuckRow(row);
    StatusKeepsReplaceable(cfg, row, stuck);
    ReplacementOfStored(cfg, row);
    var p := Check(job, Rebroadcasting(Replacement(cfg, row).value));
    hide Core, Replacement, BuildPackedUserOp, Evidence;
    RowStep(cfg, s, id, job.h, stuck, StuckAudit(s, id, job.h), p);
  }

  lemma RemarkKeepsCore(cfg: Config, s: State, id: Id, job: Job, tx: Tx)
    requires Core(cfg, s) && id in s.procs && s.procs[id] == Check(job, Remarking(tx))
    requires CanMove(s.rows, job.h, {STUCK})
    ensures Core(cfg, Put(Write(s, job.h, ResubmittedRow(s.rows[job.h], tx), BumpAudit(s, id, job.h)), id,
                          Check(job, Reenqueueing(tx))))
  {
    assert ProcOk(cfg, s, s.procs[id]);
    var row := s.rows[job.h];
    assert RowOk(cfg, s.mined, row);
    hide Core, BuildPackedUserOp, Decimal;
    ResubmissionReplaceable(cfg, row, tx);
    hide Replaceable;
    RowStep(cfg, s, id, job.h, ResubmittedRow(row, tx), BumpAudit(s, id, job.h), Check(job, Reenqueueing(tx)));
  }

  lemma CreateKeepsCore(cfg: Config, s: State, h: OpHash, op: SponsoredOp)
    requires Core(cfg, s) && h !in s.rows
    ensures Core(cfg, Step(cfg, s, Create(h, op)))
  {
    hide RowOk, Replaceable, BuildPackedUserOp;
    var s' := Step(cfg, s, Create(h, op));
    assert RowOk(cfg, s.mined, NewRow(op)) by { NewRowOk(cfg, s.mined, op); }
    forall i, j, g | Holds(s', i, g) && Holds(s', j, g) ensures i == j {
      assert Holds(s, i, g) && Holds(s, j, g);
    }
    forall i | i in s'.procs ensures TokenOk(s', i) && ProcOk(cfg, s', s'.procs[i]) {
      assert TokenOk(s, i) && ProcOk(cfg, s, s.procs[i]);
    }
  }

  lemma NewRowOk(cfg: Config, mined: map<nat, Mined>, op: SponsoredOp)
    ensures RowOk(cfg, mined, NewRow(op))
  {
  }

  lemma CallKeepsCore(cfg: Config, s: State, h: OpHash, signature: Bytes)
    requires Core(cfg, s)
    ensures Core(cfg, Step(cfg, s, Call(h, signature)))
  {
    hide RowOk, CarriesOp, BuildPackedUserOp;
    var s' := Step(cfg, s, Call(h, signature));
    forall i, j, g | Holds(s', i, g) && Holds(s', j, g) ensures i == j {
      assert Holds(s, i, g) && Holds(s, j, g);
    }
    forall i | i in s'.procs ensures TokenOk(s', i) && ProcOk(cfg, s', s'.procs[i]) {
      assert i in s.procs ==> TokenOk(s, i) && ProcOk(cfg, s, s.procs[i]);
    }
  }

  /** Mining only adds receipts: what was looked up before is still the answer. */
  lemma MineKeepsCore(cfg: Config, s: State, id: Id, receipt: Receipt)
    requires Core(cfg, s) && id in s.sent && s.sent[id].tx.nonce !in s.mined
    ensures Core(cfg, Step(cfg, s, Mine(id, receipt)))
  {
    hide CarriesOp, BuildPackedUserOp, Replaceable;
    var s' := Step(cfg, s, Mine(id, receipt));
    assert forall t :: ReceiptOf(s.mined, t).Some? ==> ReceiptOf(s'.mined, t) == ReceiptOf(s.mined, t);
    forall i, j, g | Holds(s', i, g) && Holds(s', j, g) ensures i == j {
      assert Holds(s, i, g) && Holds(s, j, g);
    }
    forall i | i in s'.procs ensures TokenOk(s', i) && ProcOk(cfg, s', s'.procs[i]) {
      assert TokenOk(s, i) && ProcOk(cfg, s, s.procs[i]);
    }
    forall h | h in s'.rows ensures RowOk(cfg, s'.mined, s'.rows[h]) {
      assert RowOk(cfg, s.mined, s.rows[h]);
    }
  }

  lemma StepKeepsCore(cfg: Config, s: State, e: Event)
    requires Core(cfg, s) && !e.Redeliver?
    ensures Core(cfg, Step(cfg, s, e))
  {
    hide Core, StepSubmit, StepCheck;
    match e
    case Create(h, op) => if h !in s.rows { CreateKeepsCore(cfg, s, h, op); }
    case Call(h, signature) => CallKeepsCore(cfg, s, h, signature);
    case Advance(id, env) =>
      if id in s.procs {
        match s.procs[id]
        case Submit(h, signature, pc) => SubmitKeepsCore(cfg, s, id, h, signature, pc, env);
        case Check(job, pc) => CheckKeepsCore(cfg, s, id, job, pc, env);
        case Done(_) =>
      }
    case Crash(id) => if id in s.procs && !s.procs[id].Done? { LocalStep(cfg, s, id, Done(Crashed)); }
    case Mine(id, receipt) =>
      if id in s.sent && s.sent[id].tx.nonce !in s.mined { MineKeepsCore(cfg, s, id, receipt); }
  }

  /** The invariant holds in every state any run can reach, under at-most-once delivery. */
  lemma {:induction false} RunKeepsCore(cfg: Config, events: seq<Event>)
    requires AtMostOnce(events)
    ensures Core(cfg, Run(cfg, Init, events))
  {
    if events == [] {
    } else {
      RunKeepsCore(cfg, events[..|events| - 1]);
      StepKeepsCore(cfg, Run(cfg, Init, events[..|events| - 1]), events[|events| - 1]);
    }
  }
}
