/** Where every broadcast comes from: nonce, fees, gas limit and signature traced back to a submit call. */
module RelayerLineage {
  import opened Wrappers
  import opened Numbers
  import opened Schema
  import opened Packing
  import opened GasBump
  import opened UserOpStateMachine
  import opened RelayerProtocol
  import opened RelayerInvariant
  import opened RelayerAudit

  type Chain = map<Id, Sent>

  ghost predicate FromCall(sent: Chain, h: OpHash, a: Id) {
    a in sent && sent[a].h == h && sent[a].origin == FromSubmit
  }

  /** `tx` has the relayer nonce of submit broadcast `a` and its fees bumped `k` times. */
  ghost predicate Root(cfg: Config, sent: Chain, h: OpHash, tx: Tx, a: Id, k: nat) {
    && FromCall(sent, h, a)
    && tx.nonce == sent[a].tx.nonce
    && tx.maxFeePerGas == BumpN(cfg.bumpPercent, sent[a].tx.maxFeePerGas, k)
    && tx.maxPriorityFeePerGas == BumpN(cfg.bumpPercent, sent[a].tx.maxPriorityFeePerGas, k)
  }

  ghost predicate Descends(cfg: Config, sent: Chain, h: OpHash, tx: Tx, bound: nat) {
    exists a: Id, k: nat :: Root(cfg, sent, h, tx, a, k) && k <= bound
  }

  /** Gas limit and account signature are those of submit broadcast `c`. */
  ghost predicate GasRoot(sent: Chain, h: OpHash, gas: nat, signature: Bytes, c: Id) {
    && FromCall(sent, h, c)
    && gas == sent[c].tx.gas
    && signature == sent[c].tx.userOp.signature
  }

  ghost predicate HasGasRoot(sent: Chain, h: OpHash, gas: nat, signature: Bytes) {
    exists c :: GasRoot(sent, h, gas, signature, c)
  }

  ghost predicate WasSent(sent: Chain, h: OpHash, tx: Tx, i: Id) {
    i in sent && sent[i].h == h && sent[i].tx == tx
  }

  /** `tx` was broadcast for `h` by an agent other than `not`. */
  ghost predicate SentByOther(sent: Chain, h: OpHash, tx: Tx, not: Id) {
    exists i :: i != not && WasSent(sent, h, tx, i)
  }

  ghost predicate TxLineage(cfg: Config, sent: Chain, h: OpHash, tx: Tx, bound: nat) {
    Descends(cfg, sent, h, tx, bound) && HasGasRoot(sent, h, tx.gas, tx.userOp.signature)
  }

  ghost predicate SentLineage(cfg: Config, s: State, i: Id)
    requires i in s.sent
  {
    var sent := s.sent[i];
    && CarriesOp(s.rows, sent.h, sent.tx.userOp.signature, sent.tx)
    && TxLineage(cfg, s.sent, sent.h, sent.tx, cfg.maxAttempts)
    && (sent.origin.Replaces? ==> && Bumps(cfg, sent.origin.replaced.tx, sent.tx)
                                  && SentByOther(s.sent, sent.h, sent.origin.replaced.tx, i))
  }

  ghost predicate StoredGas(sent: Chain, h: OpHash, row: UserOperation) {
    exists c :: FromCall(sent, h, c) && row.signature == sent[c].tx.userOp.signature
                && row.relayerGasLimit == Some(Decimal(sent[c].tx.gas))
  }

  ghost predicate RowLineage(cfg: Config, s: State, h: OpHash)
    requires h in s.rows
  {
    var row := s.rows[h];
    row.status != PENDING ==>
      && row.submittedTxHash.Some?
      && Descends(cfg, s.sent, h, row.submittedTxHash.value.tx, row.bumpCount)
      && StoredGas(s.sent, h, row)
      && exists i :: WasSent(s.sent, h, row.submittedTxHash.value.tx, i)
  }

  ghost predicate ProcLineage(cfg: Config, s: State, i: Id)
    requires i in s.procs
  {
    match s.procs[i]
    case Check(job, Rebroadcasting(tx)) =>
      && job.h in s.rows && TxLineage(cfg, s.sent, job.h, tx, s.rows[job.h].bumpCount + 1)
      && TxLineage(cfg, s.sent, job.h, tx, cfg.maxAttempts)
      && SentByOther(s.sent, job.h, job.txHash.tx, i)
    case Check(job, Remarking(tx)) =>
      job.h in s.rows && TxLineage(cfg, s.sent, job.h, tx, s.rows[job.h].bumpCount + 1)
    case _ => true
  }

  ghost predicate ChainLineage(cfg: Config, s: State) {
    forall i :: i in s.sent ==> SentLineage(cfg, s, i)
  }

  ghost predicate TableLineage(cfg: Config, s: State) {
    forall h :: h in s.rows ==> RowLineage(cfg, s, h)
  }

  ghost predicate AgentLineage(cfg: Config, s: State) {
    forall i :: i in s.procs ==> ProcLineage(cfg, s, i)
  }

  ghost predicate Lineage(cfg: Config, s: State) {
    ChainLineage(cfg, s) && TableLineage(cfg, s) && AgentLineage(cfg, s)
  }

  ghost predicate GrowsChain(sent: Chain, sent': Chain) {
    forall i :: i in sent ==> i in sent' && sent'[i] == sent[i]
  }

  lemma TxLineageFrame(cfg: Config, sent: Chain, sent': Chain, h: OpHash, tx: Tx, bound: nat, bound': nat)
    requires TxLineage(cfg, sent, h, tx, bound) && GrowsChain(sent, sent') && bound <= bound'
    ensures TxLineage(cfg, sent', h, tx, bound')
  {
    DescendsFrame(cfg, sent, sent', h, tx, bound, bound');
    var c :| GasRoot(sent, h, tx.gas, tx.userOp.signature, c);
    assert GasRoot(sent', h, tx.gas, tx.userOp.signature, c);
  }

  lemma DescendsFrame(cfg: Config, sent: Chain, sent': Chain, h: OpHash, tx: Tx, bound: nat, bound': nat)
    requires Descends(cfg, sent, h, tx, bound) && GrowsChain(sent, sent') && bound <= bound'
    ensures Descends(cfg, sent', h, tx, bound')
  {
    var a: Id, k: nat :| Root(cfg, sent, h, tx, a, k) && k <= bound;
    assert Root(cfg, sent', h, tx, a, k);
  }

  lemma SentByOtherFrame(sent: Chain, sent': Chain, h: OpHash, tx: Tx, not: Id)
    requires SentByOther(sent, h, tx, not) && GrowsChain(sent, sent')
    ensures SentByOther(sent', h, tx, not)
  {
    var i :| i != not && WasSent(sent, h, tx, i);
    assert WasSent(sent', h, tx, i);
  }

  /** A row keeps its lineage while the chain grows and its columns stay. */
  lemma RowLineageFrame(cfg: Config, s: State, s': State, h: OpHash)
    requires h in s.rows && RowLineage(cfg, s, h) && GrowsChain(s.sent, s'.sent)
    requires h in s'.rows && s'.rows[h].bumpCount == s.rows[h].bumpCount
    requires s'.rows[h].submittedTxHash == s.rows[h].submittedTxHash
    requires s'.rows[h].signature == s.rows[h].signature && s'.rows[h].relayerGasLimit == s.rows[h].relayerGasLimit
    requires s.rows[h].status == PENDING ==> s'.rows[h].status == PENDING
    ensures RowLineage(cfg, s', h)
  {
    var row := s.rows[h];
    if row.status != PENDING {
      DescendsFrame(cfg, s.sent, s'.sent, h, row.submittedTxHash.value.tx, row.bumpCount, row.bumpCount);
      var c :| FromCall(s.sent, h, c) && row.signature == s.sent[c].tx.userOp.signature
               && row.relayerGasLimit == Some(Decimal(s.sent[c].tx.gas));
      assert FromCall(s'.sent, h, c);
      var i :| WasSent(s.sent, h, row.submittedTxHash.value.tx, i);
      assert WasSent(s'.sent, h, row.submittedTxHash.value.tx, i);
    }
  }

  lemma ProcLineageFrame(cfg: Config, s: State, s': State, i: Id)
    requires i in s.procs && ProcLineage(cfg, s, i) && GrowsChain(s.sent, s'.sent)
    requires i in s'.procs && s'.procs[i] == s.procs[i]
    requires forall h :: h in s.rows ==> h in s'.rows && s'.rows[h].bumpCount >= s.rows[h].bumpCount
    ensures ProcLineage(cfg, s', i)
  {
    hide TxLineage;
    match s.procs[i]
    case Check(job, Rebroadcasting(tx)) =>
      TxLineageFrame(cfg, s.sent, s'.sent, job.h, tx, s.rows[job.h].bumpCount + 1, s'.rows[job.h].bumpCount + 1);
      TxLineageFrame(cfg, s.sent, s'.sent, job.h, tx, cfg.maxAttempts, cfg.maxAttempts);
      SentByOtherFrame(s.sent, s'.sent, job.h, job.txHash.tx, i);
    case Check(job, Remarking(tx)) =>
      TxLineageFrame(cfg, s.sent, s'.sent, job.h, tx, s.rows[job.h].bumpCount + 1, s'.rows[job.h].bumpCount + 1);
    case _ =>
  }

  lemma SentLineageFrame(cfg: Config, s: State, s': State, i: Id)
    requires i in s.sent && SentLineage(cfg, s, i) && GrowsChain(s.sent, s'.sent)
    requires forall h :: h in s.rows ==> h in s'.rows && s'.rows[h].op == s.rows[h].op
    ensures SentLineage(cfg, s', i)
  {
    hide TxLineage, BuildPackedUserOp, SentByOther;
    var sent := s.sent[i];
    TxLineageFrame(cfg, s.sent, s'.sent, sent.h, sent.tx, cfg.maxAttempts, cfg.maxAttempts);
    if sent.origin.Replaces? {
      SentByOtherFrame(s.sent, s'.sent, sent.h, sent.origin.replaced.tx, i);
    }
  }

  /** What no step ever undoes. */
  ghost predicate Later(s: State, s': State) {
    && GrowsChain(s.sent, s'.sent)
    && (forall h :: h in s.rows ==> h in s'.rows && s'.rows[h].op == s.rows[h].op
                                    && s'.rows[h].bumpCount >= s.rows[h].bumpCount)
  }

  /** A step that settles every agent, row and broadcast it touches keeps everyone else's lineage. */
  lemma StepLineage(cfg: Config, s: State, s': State)
    requires Lineage(cfg, s) && Later(s, s')
    requires forall i :: i in s'.sent ==> i in s.sent || SentLineage(cfg, s', i)
    requires forall i :: i in s'.procs ==> (i in s.procs && s'.procs[i] == s.procs[i]) || ProcLineage(cfg, s', i)
    requires forall g :: g in s'.rows ==> (g in s.rows && s'.rows[g] == s.rows[g]) || RowLineage(cfg, s', g)
    ensures Lineage(cfg, s')
  {
    hide RowLineage, ProcLineage, SentLineage;
    forall i | i in s'.sent ensures SentLineage(cfg, s', i) {
      if i in s.sent { SentLineageFrame(cfg, s, s', i); }
    }
    forall g | g in s'.rows ensures RowLineage(cfg, s', g) {
      if g in s.rows && s'.rows[g] == s.rows[g] { RowLineageFrame(cfg, s, s', g); }
    }
    forall i | i in s'.procs ensures ProcLineage(cfg, s', i) {
      if i in s.procs && s'.procs[i] == s.procs[i] { ProcLineageFrame(cfg, s, s', i); }
    }
  }

  lemma LineageAt(cfg: Config, s: State, id: Id, h: OpHash)
    requires Lineage(cfg, s)
    ensures id in s.procs ==> ProcLineage(cfg, s, id)
    ensures h in s.rows ==> RowLineage(cfg, s, h)
    ensures id in s.sent ==> SentLineage(cfg, s, id)
  {
  }

  lemma CoreRowAt(cfg: Config, s: State, h: OpHash)
    requires Core(cfg, s) && h in s.rows
    ensures RowOk(cfg, s.mined, s.rows[h])
  {
  }

  lemma BroadcastLineage(cfg: Config, s: State, id: Id, sent: Sent, p: Proc)
    requires Lineage(cfg, s) && id in s.procs && id !in s.sent && sent.h in s.rows
    requires var s' := Put(Broadcast(s, id, sent), id, p); SentLineage(cfg, s', id) && ProcLineage(cfg, s', id)
    ensures Lineage(cfg, Put(Broadcast(s, id, sent), id, p))
  {
    hide Lineage, SentLineage, ProcLineage, RowLineage;
    var s' := Put(Broadcast(s, id, sent), id, p);
    StepLineage(cfg, s, s');
  }

  lemma WriteLineage(cfg: Config, s: State, id: Id, h: OpHash, row: UserOperation, a: Audit, p: Proc)
    requires Lineage(cfg, s) && id in s.procs && h in s.rows
    requires row.op == s.rows[h].op && row.bumpCount >= s.rows[h].bumpCount
    requires var s' := Put(Write(s, h, row, a), id, p); RowLineage(cfg, s', h) && ProcLineage(cfg, s', id)
    ensures Lineage(cfg, Put(Write(s, h, row, a), id, p))
  {
    hide Lineage, ProcLineage, RowLineage, SentLineage;
    var s' := Put(Write(s, h, row, a), id, p);
    StepLineage(cfg, s, s');
  }

  lemma SubmitBroadcastLineage(cfg: Config, s: State, id: Id, h: OpHash, signature: Bytes, tx: Tx)
    requires Lineage(cfg, s) && id in s.procs && id !in s.sent
    requires CarriesOp(s.rows, h, signature, tx)
    ensures Lineage(cfg, Put(Broadcast(s, id, Sent(h, FromSubmit, tx)), id, Submit(h, signature, MarkingSubmitted(tx))))
  {
    hide BuildPackedUserOp, Lineage;
    BuiltSignature(s.rows[h].op, signature);
    var sent := Sent(h, FromSubmit, tx);
    var s' := Put(Broadcast(s, id, sent), id, Submit(h, signature, MarkingSubmitted(tx)));
    assert Root(cfg, s'.sent, h, tx, id, 0);
    assert GasRoot(s'.sent, h, tx.gas, tx.userOp.signature, id);
    BroadcastLineage(cfg, s, id, sent, Submit(h, signature, MarkingSubmitted(tx)));
  }

  lemma BuiltSignature(op: SponsoredOp, signature: Bytes)
    ensures BuildPackedUserOp(op, signature).Ok? ==> BuildPackedUserOp(op, signature).value.signature == signature
  {
    hide ReadColumn, PackHighLow128;
  }

  lemma MarkSubmittedLineage(cfg: Config, s: State, id: Id, h: OpHash, signature: Bytes, tx: Tx)
    requires Lineage(cfg, s) && id in s.procs && h in s.rows
    requires id in s.sent && s.sent[id] == Sent(h, FromSubmit, tx)
    requires CarriesOp(s.rows, h, signature, tx)
    ensures Lineage(cfg, Put(Write(s, h, SubmittedRow(s.rows[h], tx, signature), SubmitAudit(s, id, h)), id,
                             Submit(h, signature, Enqueueing(tx))))
  {
    hide BuildPackedUserOp, Lineage, Decimal;
    BuiltSignature(s.rows[h].op, signature);
    assert FromCall(s.sent, h, id);
    assert Root(cfg, s.sent, h, tx, id, 0);
    assert WasSent(s.sent, h, tx, id);
    WriteLineage(cfg, s, id, h, SubmittedRow(s.rows[h], tx, signature), SubmitAudit(s, id, h),
                 Submit(h, signature, Enqueueing(tx)));
  }

  /** The replacement of a stored transaction is one bump further from the same submit broadcast. */
  lemma ReplacementLineage(cfg: Config, s: State, h: OpHash)
    requires h in s.rows && s.rows[h].status != PENDING && RowLineage(cfg, s, h) && RowOk(cfg, s.mined, s.rows[h])
    ensures TxLineage(cfg, s.sent, h, Replacement(cfg, s.rows[h]).value, s.rows[h].bumpCount + 1)
  {
    var row := s.rows[h];
    var tx := Replacement(cfg, row).value;
    var a: Id, k: nat :| Root(cfg, s.sent, h, row.submittedTxHash.value.tx, a, k) && k <= row.bumpCount;
    assert Root(cfg, s.sent, h, tx, a, k + 1);
    var c :| FromCall(s.sent, h, c) && row.signature == s.sent[c].tx.userOp.signature
             && row.relayerGasLimit == Some(Decimal(s.sent[c].tx.gas));
    ReplacementGas(cfg, row, s.sent[c].tx.gas);
    assert GasRoot(s.sent, h, tx.gas, tx.userOp.signature, c);
  }

  lemma ReplacementGas(cfg: Config, row: UserOperation, gas: nat)
    requires Replacement(cfg, row).Ok? && row.relayerGasLimit == Some(Decimal(gas))
    ensures Replacement(cfg, row).value.gas == gas
    ensures Replacement(cfg, row).value.userOp.signature == row.signature
  {
    ReadsBack(gas);
    BuiltSignature(row.op, row.signature);
    hide BuildPackedUserOp, ReadColumn;
  }

  lemma StickLineage(cfg: Config, s: State, id: Id, job: Job, row: UserOperation)
    requires Core(cfg, s) && Lineage(cfg, s) && id in s.procs && s.procs[id] == Check(job, MarkingStuck(row))
    requires id !in s.sent
    requires Replacement(cfg, row).Ok?
    ensures Lineage(cfg, Put(Write(s, job.h, StuckRow(s.rows[job.h]), StuckAudit(s, id, job.h)), id,
                             Check(job, Rebroadcasting(Replacement(cfg, row).value))))
  {
    hide Core, Lineage, Replacement, TxLineage, RowOk;
    var h := job.h;
    CoreAt(cfg, s, id);
    CoreRowAt(cfg, s, h);
    LineageAt(cfg, s, id, h);
    ReplacementLineage(cfg, s, h);
    var tx := Replacement(cfg, row).value;
    var p := Check(job, Rebroadcasting(tx));
    var s' := Put(Write(s, h, StuckRow(row), StuckAudit(s, id, h)), id, p);
    RowLineageFrame(cfg, s, s', h);
    TxLineageFrame(cfg, s.sent, s.sent, h, tx, row.bumpCount + 1, cfg.maxAttempts);
    var i :| WasSent(s.sent, h, row.submittedTxHash.value.tx, i);
    assert i != id && SentByOther(s.sent, h, job.txHash.tx, id);
    hide RowLineage;
    WriteLineage(cfg, s, id, h, StuckRow(row), StuckAudit(s, id, h), p);
  }

  lemma StoredGasStays(sent: Chain, h: OpHash, row: UserOperation, row': UserOperation)
    requires StoredGas(sent, h, row) && row'.signature == row.signature && row'.relayerGasLimit == row.relayerGasLimit
    ensures StoredGas(sent, h, row')
  {
    var c :| FromCall(sent, h, c) && row.signature == sent[c].tx.userOp.signature
             && row.relayerGasLimit == Some(Decimal(sent[c].tx.gas));
  }

  lemma RemarkLineage(cfg: Config, s: State, id: Id, job: Job, tx: Tx)
    requires Lineage(cfg, s) && id in s.procs && s.procs[id] == Check(job, Remarking(tx))
    requires job.h in s.rows && s.rows[job.h].status != PENDING
    requires WasSent(s.sent, job.h, tx, id)
    ensures Lineage(cfg, Put(Write(s, job.h, ResubmittedRow(s.rows[job.h], tx), BumpAudit(s, id, job.h)), id,
                             Check(job, Reenqueueing(tx))))
  {
    hide Lineage, Decimal, Descends, HasGasRoot, GasRoot, FromCall;
    var h, row := job.h, s.rows[job.h];
    LineageAt(cfg, s, id, h);
    StoredGasStays(s.sent, h, row, ResubmittedRow(row, tx));
    hide StoredGas;
    WriteLineage(cfg, s, id, h, ResubmittedRow(row, tx), BumpAudit(s, id, h), Check(job, Reenqueueing(tx)));
  }

  lemma ResolveLineage(cfg: Config, s: State, id: Id, h: OpHash, row: UserOperation)
    requires Lineage(cfg, s) && id in s.procs && h in s.rows && s.rows[h].status != PENDING
    requires row == s.rows[h].(status := row.status, blockNumber := row.blockNumber, gasUsed := row.gasUsed,
                               failureReason := row.failureReason)
    requires row.status != PENDING
    ensures Lineage(cfg, Finish(Write(s, h, row, AuditOf(s, h)), id, Completed))
  {
    hide Lineage;
    LineageAt(cfg, s, id, h);
    RowLineageFrame(cfg, s, Finish(Write(s, h, row, AuditOf(s, h)), id, Completed), h);
    hide RowLineage;
    WriteLineage(cfg, s, id, h, row, AuditOf(s, h), Done(Completed));
  }

  /** The agent moves on without a write or a broadcast. */
  lemma PutLineage(cfg: Config, s: State, id: Id, p: Proc)
    requires Lineage(cfg, s)
    requires p.Check? ==> !p.chk.Rebroadcasting? && !p.chk.Remarking?
    ensures Lineage(cfg, Put(s, id, p))
  {
    hide Lineage, SentLineage, RowLineage, TxLineage;
    assert ProcLineage(cfg, Put(s, id, p), id);
    StepLineage(cfg, s, Put(s, id, p));
  }

  lemma EnqueueLineage(cfg: Config, s: State, id: Id, job: Job)
    requires Lineage(cfg, s)
    ensures Lineage(cfg, Enqueue(s, id, job))
  {
    hide Lineage, SentLineage, RowLineage, TxLineage;
    StepLineage(cfg, s, Enqueue(s, id, job));
  }

  lemma SubmitKeepsLineage(cfg: Config, s: State, id: Id, h: OpHash, signature: Bytes, pc: SubmitPc, env: Env)
    requires Core(cfg, s) && Audited(s) && Lineage(cfg, s) && id in s.procs && s.procs[id] == Submit(h, signature, pc)
    ensures Lineage(cfg, StepSubmit(s, id, h, signature, pc, env))
  {
    hide Core, Audited, Lineage, BuildPackedUserOp, SentLineage, RowLineage, TxLineage, TokenOk;
    CoreAt(cfg, s, id);
    ProcAuditAt(s, id);
    match pc
    case Broadcasting(tx) => SubmitBroadcastLineage(cfg, s, id, h, signature, tx);
    case MarkingSubmitted(tx) =>
      if CanMove(s.rows, h, SUBMITTABLE) {
        MarkSubmittedLineage(cfg, s, id, h, signature, tx);
      } else {
        PutLineage(cfg, s, id, Done(LostSubmitRace));
      }
    case Enqueueing(tx) => EnqueueLineage(cfg, s, id, Job(h, TxHash(tx)));
    case _ => PutLineage(cfg, s, id, StepSubmit(s, id, h, signature, pc, env).procs[id]);
  }

  lemma CheckKeepsLineage(cfg: Config, s: State, id: Id, job: Job, pc: CheckPc, env: Env)
    requires Core(cfg, s) && Audited(s) && Lineage(cfg, s) && id in s.procs && s.procs[id] == Check(job, pc)
    ensures Lineage(cfg, StepCheck(cfg, s, id, job, pc, env))
  {
    hide Core, Audited, Lineage, BuildPackedUserOp, Replacement, SentLineage, RowLineage, TxLineage;
    CoreAt(cfg, s, id);
    ProcAuditAt(s, id);
    match pc
    case MarkingConfirmed(receipt) => ResolveLineage(cfg, s, id, job.h, ConfirmedRow(s.rows[job.h], receipt));
    case MarkingReverted => ResolveLineage(cfg, s, id, job.h, FailedRow(s.rows[job.h], TransactionReverted));
    case MarkingExhausted =>
      ResolveLineage(cfg, s, id, job.h, FailedRow(s.rows[job.h], ExceededMaxBumps(cfg.maxAttempts)));
    case MarkingStuck(row) =>
      CoreRowAt(cfg, s, job.h);
      StickLineage(cfg, s, id, job, row);
    case Rebroadcasting(tx) =>
      LineageAt(cfg, s, id, job.h);
      RebroadcastLineage(cfg, s, id, job, tx);
    case Remarking(tx) =>
      if CanMove(s.rows, job.h, SUBMITTABLE) {
        RemarkLineage(cfg, s, id, job, tx);
      } else {
        PutLineage(cfg, s, id, Done(LostResubmitRace));
      }
    case Reenqueueing(tx) => EnqueueLineage(cfg, s, id, Job(job.h, TxHash(tx)));
    case _ => PutLineage(cfg, s, id, StepCheck(cfg, s, id, job, pc, env).procs[id]);
  }

  lemma RebroadcastLineage(cfg: Config, s: State, id: Id, job: Job, tx: Tx)
    requires Lineage(cfg, s) && id in s.procs && id !in s.sent && s.procs[id] == Check(job, Rebroadcasting(tx))
    requires Bumps(cfg, job.txHash.tx, tx) && CarriesOp(s.rows, job.h, tx.userOp.signature, tx)
    ensures Lineage(cfg, Put(Broadcast(s, id, Sent(job.h, Replaces(job.txHash), tx)), id, Check(job, Remarking(tx))))
  {
    hide Lineage, BuildPackedUserOp, TxLineage, SentByOther;
    var sent := Sent(job.h, Replaces(job.txHash), tx);
    var s' := Put(Broadcast(s, id, sent), id, Check(job, Remarking(tx)));
    LineageAt(cfg, s, id, job.h);
    TxLineageFrame(cfg, s.sent, s'.sent, job.h, tx, s.rows[job.h].bumpCount + 1, s.rows[job.h].bumpCount + 1);
    TxLineageFrame(cfg, s.sent, s'.sent, job.h, tx, cfg.maxAttempts, cfg.maxAttempts);
    SentByOtherFrame(s.sent, s'.sent, job.h, job.txHash.tx, id);
    BroadcastLineage(cfg, s, id, sent, Check(job, Remarking(tx)));
  }

  lemma CreateLineage(cfg: Config, s: State, h: OpHash, op: SponsoredOp)
    requires Lineage(cfg, s) && h !in s.rows
    ensures Lineage(cfg, Step(cfg, s, Create(h, op)))
  {
    hide Lineage, ProcLineage, SentLineage;
    StepLineage(cfg, s, Step(cfg, s, Create(h, op)));
  }

  lemma CallLineage(cfg: Config, s: State, h: OpHash, signature: Bytes)
    requires Lineage(cfg, s)
    ensures Lineage(cfg, Step(cfg, s, Call(h, signature)))
  {
    hide Lineage, SentLineage, RowLineage, TxLineage;
    StepLineage(cfg, s, Step(cfg, s, Call(h, signature)));
  }

  lemma StepKeepsLineage(cfg: Config, s: State, e: Event)
    requires Core(cfg, s) && Audited(s) && Lineage(cfg, s) && !e.Redeliver?
    ensures Lineage(cfg, Step(cfg, s, e))
  {
    hide Core, Audited, Lineage, StepSubmit, StepCheck, RowLineage, ProcLineage, SentLineage;
    match e
    case Create(h, op) => if h !in s.rows { CreateLineage(cfg, s, h, op); }
    case Call(h, signature) => CallLineage(cfg, s, h, signature);
    case Advance(id, env) =>
      if id in s.procs {
        match s.procs[id]
        case Submit(h, signature, pc) => SubmitKeepsLineage(cfg, s, id, h, signature, pc, env);
        case Check(job, pc) => CheckKeepsLineage(cfg, s, id, job, pc, env);
        case Done(_) =>
      }
    case Crash(id) => PutLineage(cfg, s, id, Done(Crashed));
    case Mine(id, receipt) => StepLineage(cfg, s, Step(cfg, s, e));
  }

  lemma {:induction false} RunKeepsLineage(cfg: Config, events: seq<Event>)
    requires AtMostOnce(events)
    ensures Lineage(cfg, Run(cfg, Init, events))
  {
    if events == [] {
    } else {
      var front := events[..|events| - 1];
      RunKeepsLineage(cfg, front);
      RunKeepsCore(cfg, front);
      RunKeepsAudit(cfg, front);
      StepKeepsLineage(cfg, Run(cfg, Init, front), events[|events| - 1]);
    }
  }
}
