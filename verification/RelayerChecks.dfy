/**
 * What a check does, whoever moves in between: how the receipt it finds, or the row it reads instead, decides the
 * operation. Stated over rows, broadcasts and the chain.
 */
module RelayerChecks {
  import opened Wrappers
  import opened Numbers
  import opened Schema
  import opened Packing
  import opened UserOpStateMachine
  import opened RelayerProtocol
  import opened RelayerInvariant
  import opened RelayerAudit
  import opened RelayerLineage
  import opened RelayerTheorems
  import opened RelayerStretches
  import opened RelayerContest
  import opened RelayerCalls

  // ----- what a check makes of the receipt

  /** The chain holds this very transaction, with this receipt. */
  ghost predicate MinedWith(mined: map<nat, Mined>, tx: Tx, receipt: Receipt) {
    exists n :: n in mined && mined[n] == Mined(tx, receipt)
  }

  lemma LookupFindsMined(cfg: Config, events: seq<Event>, tx: Tx, receipt: Receipt)
    requires AtMostOnce(events)
    ensures var mined := Reached(cfg, events).mined;
            ReceiptOf(mined, TxHash(tx)) == Some(receipt) <==> MinedWith(mined, tx, receipt)
  {
    MinedUnderOwnNonce(cfg, events);
    hide Reached;
    var mined := Reached(cfg, events).mined;
    if ReceiptOf(mined, TxHash(tx)) == Some(receipt) {
      assert mined[tx.nonce] == Mined(tx, receipt);
    }
  }

  /** The lookup answers, and the check's own transaction was mined. */
  ghost predicate Found(mined: map<nat, Mined>, job: Job, env: Env, receipt: Receipt) {
    env.rpcAnswers && MinedWith(mined, job.txHash.tx, receipt)
  }

  /** The final row a receipt calls for. */
  function Settled(row: UserOperation, receipt: Receipt): UserOperation {
    if receipt.success
    then row.(status := CONFIRMED, blockNumber := Some(receipt.blockNumber), gasUsed := Some(Decimal(receipt.gasUsed)))
    else row.(status := FAILED, failureReason := Some(TransactionReverted))
  }

  lemma FetchStep(cfg: Config, s: State, id: Id, job: Job, env: Env)
    requires id in s.procs && s.procs[id] == Check(job, Fetching)
    ensures var s' := Step(cfg, s, Advance(id, env));
            var receipt := ReceiptOf(s.mined, job.txHash);
            && s'.rows == s.rows && s'.sent == s.sent && s'.mined == s.mined && id in s'.procs
            && s'.procs[id] == Check(job, if !env.rpcAnswers || receipt.None? then Loading
                                          else if receipt.value.success then MarkingConfirmed(receipt.value)
                                          else MarkingReverted)
  {
    CheckAdvance(cfg, s, id, job, Fetching, env);
    hide Step, ReceiptOf;
  }

  lemma SettleStep(cfg: Config, s: State, id: Id, job: Job, receipt: Receipt, env: Env)
    requires Core(cfg, s) && id in s.procs
    requires s.procs[id] == Check(job, if receipt.success then MarkingConfirmed(receipt) else MarkingReverted)
    ensures var s' := Step(cfg, s, Advance(id, env));
            && job.h in s.rows && s'.rows == s.rows[job.h := Settled(s.rows[job.h], receipt)]
            && id in s'.procs && s'.procs[id] == Done(Completed)
  {
    assert TokenOk(s, id);
    hide StepSubmit, Replacement, Core, AuditOf, Moved;
  }

  /**
   * A check whose lookup finds its transaction mined settles the row with its very next step, whoever moves in
   * between: CONFIRMED with that block and gas if the receipt says success, FAILED as reverted if not.
   */
  lemma ReceiptDecides(cfg: Config, before: seq<Event>, id: Id, job: Job, receipt: Receipt, env: Env,
                       others: seq<Event>, env': Env)
    requires AtMostOnce(before + [Advance(id, env)] + others) && Leaves(others, id)
    requires var s := Reached(cfg, before);
             id in s.procs && s.procs[id] == Check(job, Fetching) && Found(s.mined, job, env, receipt)
    ensures var marking := before + [Advance(id, env)] + others;
            var rows, s' := Reached(cfg, marking).rows, Reached(cfg, marking + [Advance(id, env')]);
            && job.h in rows && s'.rows == rows[job.h := Settled(rows[job.h], receipt)]
            && id in s'.procs && s'.procs[id] == Done(Completed)
  {
    var looked := before + [Advance(id, env)];
    Started(before, [Advance(id, env)] + others);
    assert before + ([Advance(id, env)] + others) == looked + others;
    LookupFindsMined(cfg, before, job.txHash.tx, receipt);
    NoOthers(cfg, before, id, env);
    RunKeepsCore(cfg, looked + others);
    ReachedIs(cfg, looked + others);
    hide Reached, Step, Leaves, AtMostOnce, Core, ReceiptOf, Settled;
    FetchStep(cfg, Reached(cfg, before), id, job, env);
    Turn(cfg, looked, others, id, env');
    SettleStep(cfg, Reached(cfg, looked + others), id, job, receipt, env');
  }

  lemma Started(a: seq<Event>, b: seq<Event>)
    requires AtMostOnce(a + b)
    ensures AtMostOnce(a)
  {
    assert forall i :: 0 <= i < |a| ==> (a + b)[i] == a[i];
  }

  lemma NoOthers(cfg: Config, before: seq<Event>, id: Id, env: Env)
    ensures Reached(cfg, before + [Advance(id, env)]) == Step(cfg, Reached(cfg, before), Advance(id, env))
  {
    assert (before + [Advance(id, env)])[..|before|] == before;
  }

  lemma LoadStep(cfg: Config, s: State, id: Id, job: Job, env: Env)
    requires Core(cfg, s) && id in s.procs && s.procs[id] == Check(job, Loading)
    ensures var s' := Step(cfg, s, Advance(id, env));
            && job.h in s.rows && s'.rows == s.rows && id in s'.procs
            && s'.procs[id] == Check(job, if s.rows[job.h].bumpCount >= cfg.maxAttempts then MarkingExhausted
                                          else MarkingStuck(s.rows[job.h]))
  {
    assert TokenOk(s, id);
    hide StepSubmit, Replacement, Core;
  }

  lemma ExhaustStep(cfg: Config, s: State, id: Id, job: Job, env: Env)
    requires Core(cfg, s) && id in s.procs && s.procs[id] == Check(job, MarkingExhausted)
    ensures var s' := Step(cfg, s, Advance(id, env));
            && job.h in s.rows && id in s'.procs && s'.procs[id] == Done(Completed)
            && s.rows[job.h].bumpCount >= cfg.maxAttempts
            && s'.rows == s.rows[job.h := FailedRow(s.rows[job.h], ExceededMaxBumps(cfg.maxAttempts))]
  {
    assert TokenOk(s, id) && ProcOk(cfg, s, s.procs[id]);
    hide StepSubmit, Replacement, Core, AuditOf, Moved, FailedRow;
  }

  lemma StickStep(cfg: Config, s: State, id: Id, job: Job, row: UserOperation, env: Env) returns (tx: Tx)
    requires Core(cfg, s) && id in s.procs && s.procs[id] == Check(job, MarkingStuck(row))
    ensures Bumps(cfg, job.txHash.tx, tx) && job.h in s.rows && s.rows[job.h] == row
    ensures var s' := Step(cfg, s, Advance(id, env));
            && s'.rows == s.rows[job.h := StuckRow(row)] && s'.sent == s.sent
            && id in s'.procs && s'.procs[id] == Check(job, Rebroadcasting(tx))
  {
    hide Core, Replacement, Evidence, StoresTx, StepSubmit, StuckAudit, Moved, StuckRow;
    CoreAt(cfg, s, id);
    CoreRowAt(cfg, s, job.h);
    tx := Replacement(cfg, row).value;
  }

  lemma RebroadcastStep(cfg: Config, s: State, id: Id, job: Job, tx: Tx, env: Env)
    requires id in s.procs && s.procs[id] == Check(job, Rebroadcasting(tx))
    ensures var s' := Step(cfg, s, Advance(id, env));
            id in s'.sent && s'.sent[id] == Sent(job.h, Replaces(job.txHash), tx)
  {
    hide StepSubmit, Replacement, Write;
  }

  /** The check of a transaction it does not find. */
  ghost predicate NotFoundBy(cfg: Config, before: seq<Event>, id: Id, job: Job, env: Env) {
    var s := Reached(cfg, before);
    id in s.procs && s.procs[id] == Check(job, Fetching) && forall receipt :: !Found(s.mined, job, env, receipt)
  }

  /** The check gives up: the row is FAILED, its budget spent. */
  ghost predicate GivesUp(cfg: Config, h: OpHash, rows: Table, s': State) {
    && h in rows && rows[h].bumpCount >= cfg.maxAttempts
    && s'.rows == rows[h := rows[h].(status := FAILED, failureReason := Some(ExceededMaxBumps(cfg.maxAttempts)))]
  }

  /** The check goes on: the row is STUCK, and its next broadcast is its own transaction with each fee bumped once. */
  ghost predicate Rebids(cfg: Config, job: Job, id: Id, read: Table, rows: Table, s': State, s'': State) {
    && job.h in rows && job.h in read && rows[job.h] == read[job.h] && read[job.h].bumpCount < cfg.maxAttempts
    && s'.rows == rows[job.h := rows[job.h].(status := STUCK)]
    && id in s''.sent && s''.sent[id].h == job.h && s''.sent[id].origin == Replaces(job.txHash)
    && Bumps(cfg, job.txHash.tx, s''.sent[id].tx)
  }

  /**
   * A check whose lookup finds nothing reads the row, and nobody else changes it until the check marks it: FAILED
   * if the bumps it read are used up, else STUCK, and then it broadcasts its own transaction anew.
   */
  lemma NoReceiptDecides(cfg: Config, before: seq<Event>, id: Id, job: Job, env: Env, x1: seq<Event>, env1: Env,
                         x2: seq<Event>, env2: Env, x3: seq<Event>, env3: Env)
    requires AtMostOnce(before + [Advance(id, env)] + x1 + [Advance(id, env1)] + x2 + [Advance(id, env2)] + x3)
    requires Leaves(x1, id) && Leaves(x2, id) && Leaves(x3, id) && NotFoundBy(cfg, before, id, job, env)
    ensures var reading := before + [Advance(id, env)] + x1;
            var marking := reading + [Advance(id, env1)] + x2;
            var marked := marking + [Advance(id, env2)];
            var last := marked + x3 + [Advance(id, env3)];
            var read, rows := Reached(cfg, reading).rows, Reached(cfg, marking).rows;
            && job.h in read
            && if read[job.h].bumpCount >= cfg.maxAttempts then GivesUp(cfg, job.h, rows, Reached(cfg, marked))
               else Rebids(cfg, job, id, read, rows, Reached(cfg, marked), Reached(cfg, last))
  {
    var looked := before + [Advance(id, env)];
    var reading := looked + x1;
    var marking := reading + [Advance(id, env1)] + x2;
    var marked := marking + [Advance(id, env2)];
    Started(marked, x3);
    Started(marking, [Advance(id, env2)]);
    Started(reading + [Advance(id, env1)], x2);
    Started(reading, [Advance(id, env1)]);
    Started(looked, x1);
    Started(before, [Advance(id, env)]);
    ReceiptIsFound(cfg, before, job, env);
    NoOthers(cfg, before, id, env);
    CoreReached(cfg, reading);
    CoreReached(cfg, marking);
    hide Reached, Step, Leaves, AtMostOnce, Core, ReceiptOf, Bumps;
    FetchStep(cfg, Reached(cfg, before), id, job, env);
    Turn(cfg, looked, x1, id, env1);
    LoadStep(cfg, Reached(cfg, reading), id, job, env1);
    Turn(cfg, reading + [Advance(id, env1)], x2, id, env2);
    var row := Reached(cfg, reading).rows[job.h];
    if row.bumpCount >= cfg.maxAttempts {
      ExhaustStep(cfg, Reached(cfg, marking), id, job, env2);
    } else {
      var tx := StickStep(cfg, Reached(cfg, marking), id, job, row, env2);
      Turn(cfg, marked, x3, id, env3);
      RebroadcastStep(cfg, Reached(cfg, marked + x3), id, job, tx, env3);
    }
  }

  lemma CoreReached(cfg: Config, events: seq<Event>)
    requires AtMostOnce(events)
    ensures Core(cfg, Reached(cfg, events))
  {
    RunKeepsCore(cfg, events);
  }

  lemma ReceiptIsFound(cfg: Config, before: seq<Event>, job: Job, env: Env)
    requires AtMostOnce(before) && forall receipt :: !Found(Reached(cfg, before).mined, job, env, receipt)
    ensures !env.rpcAnswers || ReceiptOf(Reached(cfg, before).mined, job.txHash).None?
  {
    hide Reached, AtMostOnce;
    var receipt := ReceiptOf(Reached(cfg, before).mined, job.txHash);
    if receipt.Some? {
      LookupFindsMined(cfg, before, job.txHash.tx, receipt.value);
      assert !Found(Reached(cfg, before).mined, job, env, receipt.value);
    }
  }

  // ----- both ends are reached

  /** One call, one broadcast, mined with this receipt, and the row settled accordingly. */
  ghost predicate EndsSettled(cfg: Config, events: seq<Event>, h: OpHash, receipt: Receipt) {
    var s := Reached(cfg, events);
    && AtMostOnce(events) && |Calls(s, h)| == 1 && h in s.rows
    && if receipt.success
       then && s.rows[h].status == CONFIRMED && s.rows[h].blockNumber == Some(receipt.blockNumber)
            && s.rows[h].gasUsed == Some(Decimal(receipt.gasUsed))
       else s.rows[h].status == FAILED && s.rows[h].failureReason == Some(TransactionReverted)
  }

  lemma MineOne(cfg: Config, before: seq<Event>, i: Id, receipt: Receipt)
    requires i in Reached(cfg, before).sent && Reached(cfg, before).mined == map[]
    ensures var s, s' := Reached(cfg, before), Reached(cfg, before + [Mine(i, receipt)]);
            s' == s.(mined := s'.mined) && MinedWith(s'.mined, s.sent[i].tx, receipt)
  {
    var s, events := Reached(cfg, before), before + [Mine(i, receipt)];
    assert events[..|before|] == before;
    assert Reached(cfg, events) == Step(cfg, s, Mine(i, receipt));
    assert Reached(cfg, events).mined[s.sent[i].tx.nonce] == Mined(s.sent[i].tx, receipt);
  }

  /** A SUBMITTED row's transaction was broadcast. */
  lemma StoredWasSent(cfg: Config, events: seq<Event>, id: Id, job: Job) returns (i: Id)
    requires AtMostOnce(events)
    requires id in Reached(cfg, events).procs && Reached(cfg, events).procs[id] == Check(job, Queued)
    ensures i in Reached(cfg, events).sent && Reached(cfg, events).sent[i].tx == job.txHash.tx
  {
    RunKeepsCore(cfg, events);
    RunKeepsLineage(cfg, events);
    ReachedIs(cfg, events);
    hide Core, Lineage, Reached, Run;
    i := HeldWasSent(cfg, Reached(cfg, events), id, job);
  }

  lemma HeldWasSent(cfg: Config, s: State, id: Id, job: Job) returns (i: Id)
    requires Core(cfg, s) && Lineage(cfg, s) && id in s.procs && s.procs[id] == Check(job, Queued)
    ensures i in s.sent && s.sent[i].tx == job.txHash.tx
  {
    hide Core, Lineage, Descends, StoredGas, ProcOk, ProcLineage;
    CoreAt(cfg, s, id);
    LineageAt(cfg, s, id, job.h);
    i :| WasSent(s.sent, job.h, job.txHash.tx, i);
  }

  lemma PickUp(cfg: Config, before: seq<Event>, id: Id, job: Job, env: Env)
    requires id in Reached(cfg, before).procs && Reached(cfg, before).procs[id] == Check(job, Queued)
    ensures var s, s' := Reached(cfg, before), Reached(cfg, before + [Advance(id, env)]);
            s' == s.(procs := s'.procs) && id in s'.procs && s'.procs[id] == Check(job, Fetching)
  {
    hide Reached, StepSubmit, Replacement, Write;
    NoOthers(cfg, before, id, env);
  }

  lemma KeepsCalls(cfg: Config, before: seq<Event>, id: Id, env: Env)
    requires id in Reached(cfg, before).procs
    ensures var s := Reached(cfg, before + [Advance(id, env)]); id in s.procs && s.calls == Reached(cfg, before).calls
  {
    RunIsNumbered(cfg, before);
    NoOthers(cfg, before, id, env);
    hide Reached, Step;
    AdvanceIsAlone(cfg, Reached(cfg, before), id, env);
  }

  lemma OneMore(events: seq<Event>, e: Event)
    requires AtMostOnce(events) && !e.Redeliver?
    ensures AtMostOnce(events + [e])
  {
  }

  /** One call, its transaction broadcast, the first check queued, and no block yet. */
  lemma FirstCheck(cfg: Config, h: OpHash, op: SponsoredOp, signature: Bytes) returns (start: seq<Event>, job: Job)
    requires BuildPackedUserOp(op, signature).Ok?
    ensures AtMostOnce(start) && job.h == h
    ensures var s := Reached(cfg, start);
            1 in s.procs && s.procs[1] == Check(job, Queued) && s.mined == map[] && |Calls(s, h)| == 1
  {
    hide BuildPackedUserOp, Run, Leads, Racing, Broadcasts, Calls;
    start, job := FirstWins(cfg, h, op, signature, 1);
    PlainIsAtMostOnce(start);
    PlainMinesNothing(cfg, Init, start);
    ReachedIs(cfg, start);
  }

  lemma SettledStatus(row: UserOperation, receipt: Receipt)
    ensures var settled := Settled(row, receipt);
            if receipt.success
            then && settled.status == CONFIRMED && settled.blockNumber == Some(receipt.blockNumber)
                 && settled.gasUsed == Some(Decimal(receipt.gasUsed))
            else settled.status == FAILED && settled.failureReason == Some(TransactionReverted)
  {
  }

  /** Whatever the receipt, a run with one call gets there: CONFIRMED with it, or FAILED as reverted. */
  lemma EveryReceiptSettlesSomeRun(cfg: Config, h: OpHash, op: SponsoredOp, signature: Bytes, receipt: Receipt)
    requires BuildPackedUserOp(op, signature).Ok?
    ensures exists events :: EndsSettled(cfg, events, h, receipt)
  {
    hide BuildPackedUserOp, Reached, AtMostOnce, Calls, Settled, MinedWith;
    var start, job := FirstCheck(cfg, h, op, signature);
    var i := StoredWasSent(cfg, start, 1, job);
    var mined := start + [Mine(i, receipt)];
    MineOne(cfg, start, i, receipt);
    var env := Env(0, 0, 0, 0, true);
    var picked := mined + [Advance(1, env)];
    PickUp(cfg, mined, 1, job, env);
    var looked := picked + [Advance(1, env)];
    var settled := looked + [] + [Advance(1, env)];
    assert looked + [] == looked;
    OneMore(start, Mine(i, receipt));
    OneMore(mined, Advance(1, env));
    OneMore(picked, Advance(1, env));
    OneMore(looked, Advance(1, env));
    ReceiptDecides(cfg, picked, 1, job, receipt, env, [], env);
    NoOthers(cfg, picked, 1, env);
    KeepsCalls(cfg, picked, 1, env);
    Bystander(cfg, looked, [], 1);
    KeepsCalls(cfg, looked, 1, env);
    SameCalls(Reached(cfg, start), Reached(cfg, settled), h);
    SettledStatus(Reached(cfg, looked).rows[h], receipt);
    assert EndsSettled(cfg, settled, h, receipt);
  }
}
