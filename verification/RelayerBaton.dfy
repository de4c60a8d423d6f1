/**
 * Runs in which no submit call took over a STUCK row: the worker that marked the row STUCK is the only agent
 * that can move it on, and the stored fees are the submitted ones bumped exactly bumpCount times.
 */
module RelayerBaton {
  import opened Wrappers
  import opened Numbers
  import opened Schema
  import opened Packing
  import opened UserOpStateMachine
  import opened RelayerProtocol
  import opened RelayerInvariant
  import opened RelayerAudit
  import opened RelayerLineage

  /** A worker between its markStuck and its markSubmitted. */
  ghost predicate Baton(s: State, i: Id, h: OpHash) {
    && i in s.procs && s.procs[i].Check? && s.procs[i].job.h == h
    && (s.procs[i].chk.Rebroadcasting? || s.procs[i].chk.Remarking?)
  }

  ghost predicate NeverTakenOver(s: State, h: OpHash) {
    AuditOf(s, h).takenOverBy == {}
  }

  ghost predicate ExactRoot(cfg: Config, s: State, h: OpHash)
    requires h in s.rows
  {
    s.rows[h].status != PENDING ==>
      && s.rows[h].submittedTxHash.Some?
      && exists a: Id :: Root(cfg, s.sent, h, s.rows[h].submittedTxHash.value.tx, a, s.rows[h].bumpCount)
  }

  ghost predicate RowBatons(cfg: Config, s: State, h: OpHash)
    requires h in s.rows
  {
    NeverTakenOver(s, h) ==>
      && (forall i :: Baton(s, i, h) ==> s.rows[h].status == STUCK
                                         && s.rows[h].submittedTxHash == Some(s.procs[i].job.txHash))
      && (forall i, j :: Baton(s, i, h) && Baton(s, j, h) ==> i == j)
      && ExactRoot(cfg, s, h)
  }

  ghost predicate Batons(cfg: Config, s: State) {
    forall h :: h in s.rows ==> RowBatons(cfg, s, h)
  }

  lemma BatonsAt(cfg: Config, s: State, h: OpHash)
    requires Batons(cfg, s) && h in s.rows
    ensures RowBatons(cfg, s, h)
  {
  }

  /** Row `g` is as it was and has no new baton. */
  ghost predicate Untouched(s: State, s': State, g: OpHash)
    requires g in s'.rows
  {
    && g in s.rows && s'.rows[g] == s.rows[g]
    && AuditOf(s, g).takenOverBy <= AuditOf(s', g).takenOverBy
    && forall i :: Baton(s', i, g) ==> Baton(s, i, g) && s'.procs[i].job == s.procs[i].job
  }

  lemma UntouchedBatons(cfg: Config, s: State, s': State, g: OpHash)
    requires g in s'.rows && Untouched(s, s', g) && RowBatons(cfg, s, g) && GrowsChain(s.sent, s'.sent)
    ensures RowBatons(cfg, s', g)
  {
    if NeverTakenOver(s', g) && s.rows[g].status != PENDING {
      var tx, n := s.rows[g].submittedTxHash.value.tx, s.rows[g].bumpCount;
      var a: Id :| Root(cfg, s.sent, g, tx, a, n);
      assert Root(cfg, s'.sent, g, tx, a, n);
    }
  }

  lemma StepBatons(cfg: Config, s: State, s': State)
    requires Batons(cfg, s) && GrowsChain(s.sent, s'.sent)
    requires forall g :: g in s'.rows ==> Untouched(s, s', g) || RowBatons(cfg, s', g)
    ensures Batons(cfg, s')
  {
    hide RowBatons;
    forall g | g in s'.rows ensures RowBatons(cfg, s', g) {
      if Untouched(s, s', g) {
        BatonsAt(cfg, s, g);
        UntouchedBatons(cfg, s, s', g);
      }
    }
  }

  lemma PutBatons(cfg: Config, s: State, id: Id, p: Proc)
    requires Batons(cfg, s)
    requires p.Check? ==> !p.chk.Rebroadcasting? && !p.chk.Remarking?
    ensures Batons(cfg, Put(s, id, p))
  {
    hide Batons, RowBatons;
    StepBatons(cfg, s, Put(s, id, p));
  }

  lemma BroadcastBatons(cfg: Config, s: State, id: Id, sent: Sent, p: Proc)
    requires Batons(cfg, s) && id !in s.sent
    requires forall h :: Baton(Put(s, id, p), id, h) ==> Baton(s, id, h) && s.procs[id].job == p.job
    ensures Batons(cfg, Put(Broadcast(s, id, sent), id, p))
  {
    hide Batons, RowBatons;
    var s' := Put(Broadcast(s, id, sent), id, p);
    forall g | g in s'.rows ensures Untouched(s, s', g) {
      forall i | Baton(s', i, g) ensures Baton(s, i, g) && s'.procs[i].job == s.procs[i].job {
        if i == id { assert Baton(Put(s, id, p), id, g); }
      }
    }
    StepBatons(cfg, s, s');
  }

  lemma EnqueueBatons(cfg: Config, s: State, id: Id, job: Job)
    requires Batons(cfg, s)
    ensures Batons(cfg, Enqueue(s, id, job))
  {
    hide Batons, RowBatons;
    StepBatons(cfg, s, Enqueue(s, id, job));
  }

  lemma WriteBatons(cfg: Config, s: State, id: Id, h: OpHash, row: UserOperation, a: Audit, p: Proc)
    requires Batons(cfg, s) && h in s.rows && h in s.audit
    requires forall g :: Baton(Put(s, id, p), id, g) ==> g == h
    requires RowBatons(cfg, Put(Write(s, h, row, a), id, p), h)
    ensures Batons(cfg, Put(Write(s, h, row, a), id, p))
  {
    hide Batons, RowBatons;
    var s' := Put(Write(s, h, row, a), id, p);
    assert forall g :: Baton(s', id, g) ==> Baton(Put(s, id, p), id, g);
    forall g | g in s'.rows && g != h ensures Untouched(s, s', g) {
      assert forall i :: Baton(s', i, g) && i != id ==> Baton(s, i, g);
    }
    StepBatons(cfg, s, s');
  }

  /** Leaving PENDING, or taking over. */
  lemma MarkSubmittedBatons(cfg: Config, s: State, id: Id, h: OpHash, signature: Bytes, tx: Tx)
    requires Batons(cfg, s) && id in s.procs && h in s.rows && h in s.audit
    requires id in s.sent && s.sent[id] == Sent(h, FromSubmit, tx)
    requires CanMove(s.rows, h, SUBMITTABLE) && (s.rows[h].status == PENDING ==> s.rows[h].bumpCount == 0)
    ensures Batons(cfg, Put(Write(s, h, SubmittedRow(s.rows[h], tx, signature), SubmitAudit(s, id, h)), id,
                            Submit(h, signature, Enqueueing(tx))))
  {
    hide Batons, Decimal;
    BatonsAt(cfg, s, h);
    var row, a, p := SubmittedRow(s.rows[h], tx, signature), SubmitAudit(s, id, h),
        Submit(h, signature, Enqueueing(tx));
    var s' := Put(Write(s, h, row, a), id, p);
    if NeverTakenOver(s', h) {
      assert id in a.takenOverBy || s.rows[h].status == PENDING;
      assert Root(cfg, s'.sent, h, tx, id, 0);
      assert forall i :: Baton(s', i, h) ==> Baton(s, i, h);
    }
    WriteBatons(cfg, s, id, h, row, a, p);
  }

  /** A write from SUBMITTED: nobody held the baton; the writer takes it or nobody does. */
  lemma FromSubmittedBatons(cfg: Config, s: State, id: Id, job: Job, row: UserOperation, a: Audit, p: Proc)
    requires Batons(cfg, s) && id in s.procs && job.h in s.rows && job.h in s.audit
    requires s.rows[job.h].status == SUBMITTED && s.rows[job.h].submittedTxHash == Some(job.txHash)
    requires row.status != PENDING && row.submittedTxHash == Some(job.txHash)
    requires row.bumpCount == s.rows[job.h].bumpCount && a.takenOverBy == s.audit[job.h].takenOverBy
    requires p.Done? || (row.status == STUCK && p.Check? && p.job == job && p.chk.Rebroadcasting?)
    ensures Batons(cfg, Put(Write(s, job.h, row, a), id, p))
  {
    hide Batons;
    var h := job.h;
    BatonsAt(cfg, s, h);
    var s' := Put(Write(s, h, row, a), id, p);
    if NeverTakenOver(s', h) {
      assert forall i :: Baton(s', i, h) && i != id ==> Baton(s, i, h);
      var b: Id :| Root(cfg, s.sent, h, job.txHash.tx, b, row.bumpCount);
      assert Root(cfg, s'.sent, h, job.txHash.tx, b, row.bumpCount);
    }
    WriteBatons(cfg, s, id, h, row, a, p);
  }

  /** The baton holder resubmits: one more bump from the same submit broadcast. */
  lemma RemarkBatons(cfg: Config, s: State, id: Id, job: Job, tx: Tx)
    requires Batons(cfg, s) && id in s.procs && s.procs[id] == Check(job, Remarking(tx))
    requires job.h in s.rows && job.h in s.audit && Bumps(cfg, job.txHash.tx, tx)
    ensures Batons(cfg, Put(Write(s, job.h, ResubmittedRow(s.rows[job.h], tx), BumpAudit(s, id, job.h)), id,
                            Check(job, Reenqueueing(tx))))
  {
    hide Batons, Decimal;
    var h := job.h;
    BatonsAt(cfg, s, h);
    var row, a, p := ResubmittedRow(s.rows[h], tx), BumpAudit(s, id, h), Check(job, Reenqueueing(tx));
    var s' := Put(Write(s, h, row, a), id, p);
    if NeverTakenOver(s', h) {
      assert Baton(s, id, h);
      assert forall i :: Baton(s', i, h) ==> Baton(s, i, h);
      var b: Id :| Root(cfg, s.sent, h, job.txHash.tx, b, s.rows[h].bumpCount);
      assert Root(cfg, s'.sent, h, tx, b, row.bumpCount);
    }
    WriteBatons(cfg, s, id, h, row, a, p);
  }

  lemma SubmitKeepsBatons(cfg: Config, s: State, id: Id, h: OpHash, signature: Bytes, pc: SubmitPc, env: Env)
    requires Core(cfg, s) && Audited(s) && Batons(cfg, s) && id in s.procs && s.procs[id] == Submit(h, signature, pc)
    ensures Batons(cfg, StepSubmit(s, id, h, signature, pc, env))
  {
    hide Core, Audited, Batons, BuildPackedUserOp, TokenOk;
    ProcAuditAt(s, id);
    match pc
    case Broadcasting(tx) =>
      BroadcastBatons(cfg, s, id, Sent(h, FromSubmit, tx), Submit(h, signature, MarkingSubmitted(tx)));
    case MarkingSubmitted(tx) =>
      if CanMove(s.rows, h, SUBMITTABLE) {
        CoreRowAt(cfg, s, h);
        AuditedAt(s, id, h);
        MarkSubmittedBatons(cfg, s, id, h, signature, tx);
      } else {
        PutBatons(cfg, s, id, Done(LostSubmitRace));
      }
    case Enqueueing(tx) => EnqueueBatons(cfg, s, id, Job(h, TxHash(tx)));
    case _ => PutBatons(cfg, s, id, StepSubmit(s, id, h, signature, pc, env).procs[id]);
  }

  lemma CheckKeepsBatons(cfg: Config, s: State, id: Id, job: Job, pc: CheckPc, env: Env)
    requires Core(cfg, s) && Audited(s) && Batons(cfg, s) && id in s.procs && s.procs[id] == Check(job, pc)
    ensures Batons(cfg, StepCheck(cfg, s, id, job, pc, env))
  {
    hide Core, Audited, Batons, BuildPackedUserOp, Replacement, RowAudit;
    CoreAt(cfg, s, id);
    AuditHas(s, job.h);
    ProcAuditAt(s, id);
    match pc
    case MarkingConfirmed(receipt) =>
      FromSubmittedBatons(cfg, s, id, job, ConfirmedRow(s.rows[job.h], receipt), AuditOf(s, job.h), Done(Completed));
    case MarkingReverted =>
      FromSubmittedBatons(cfg, s, id, job, FailedRow(s.rows[job.h], TransactionReverted), AuditOf(s, job.h),
                          Done(Completed));
    case MarkingExhausted =>
      FromSubmittedBatons(cfg, s, id, job, FailedRow(s.rows[job.h], ExceededMaxBumps(cfg.maxAttempts)),
                          AuditOf(s, job.h), Done(Completed));
    case MarkingStuck(row) =>
      FromSubmittedBatons(cfg, s, id, job, StuckRow(row), StuckAudit(s, id, job.h),
                          StepCheck(cfg, s, id, job, pc, env).procs[id]);
    case Rebroadcasting(tx) =>
      BroadcastBatons(cfg, s, id, Sent(job.h, Replaces(job.txHash), tx), Check(job, Remarking(tx)));
    case Remarking(tx) =>
      if CanMove(s.rows, job.h, SUBMITTABLE) {
        RemarkBatons(cfg, s, id, job, tx);
      } else {
        PutBatons(cfg, s, id, Done(LostResubmitRace));
      }
    case Reenqueueing(tx) => EnqueueBatons(cfg, s, id, Job(job.h, TxHash(tx)));
    case _ => PutBatons(cfg, s, id, StepCheck(cfg, s, id, job, pc, env).procs[id]);
  }

  lemma AuditHas(s: State, h: OpHash)
    requires Audited(s)
    ensures h in s.rows <==> h in s.audit
  {
  }

  lemma CreateBatons(cfg: Config, s: State, h: OpHash, op: SponsoredOp)
    requires Core(cfg, s) && Batons(cfg, s) && h !in s.rows
    ensures Batons(cfg, Step(cfg, s, Create(h, op)))
  {
    hide Batons, BuildPackedUserOp;
    var s' := Step(cfg, s, Create(h, op));
    assert forall i :: Baton(s', i, h) ==> i in s.procs && !ProcOk(cfg, s, s.procs[i]);
    assert RowBatons(cfg, s', h);
    hide Core, RowBatons;
    StepBatons(cfg, s, s');
  }

  lemma StepKeepsBatons(cfg: Config, s: State, e: Event)
    requires Core(cfg, s) && Audited(s) && Batons(cfg, s) && !e.Redeliver?
    ensures Batons(cfg, Step(cfg, s, e))
  {
    hide Core, Audited, Batons, RowBatons, StepSubmit, StepCheck;
    match e
    case Create(h, op) => if h !in s.rows { CreateBatons(cfg, s, h, op); }
    case Call(h, signature) => StepBatons(cfg, s, Step(cfg, s, e));
    case Advance(id, env) =>
      if id in s.procs {
        match s.procs[id]
        case Submit(h, signature, pc) => SubmitKeepsBatons(cfg, s, id, h, signature, pc, env);
        case Check(job, pc) => CheckKeepsBatons(cfg, s, id, job, pc, env);
        case Done(_) =>
      }
    case Crash(id) => PutBatons(cfg, s, id, Done(Crashed));
    case Mine(id, receipt) => StepBatons(cfg, s, Step(cfg, s, e));
  }

  lemma {:induction false} RunKeepsBatons(cfg: Config, events: seq<Event>)
    requires AtMostOnce(events)
    ensures Batons(cfg, Run(cfg, Init, events))
  {
    if events == [] {
    } else {
      var front := events[..|events| - 1];
      RunKeepsBatons(cfg, front);
      RunKeepsCore(cfg, front);
      RunKeepsAudit(cfg, front);
      StepKeepsBatons(cfg, Run(cfg, Init, front), events[|events| - 1]);
    }
  }
}
