/** What every step of an agent has in common: the agent gets further, and nobody else moves. */
module RelayerShapes {
  import opened Wrappers
  import opened Numbers
  import opened Schema
  import opened Packing
  import opened UserOpStateMachine
  import opened RelayerProtocol

  /** The longest way through `process` and `handleStuck`, counted in awaits. */
  const STEPS: nat := 7

  /** How far an agent has come. */
  function Stage(p: Proc): nat {
    match p
    case Submit(_, _, pc) => SubmitStage(pc)
    case Check(_, pc) => CheckStage(pc)
    case Done(_) => STEPS
  }

  function SubmitStage(pc: SubmitPc): nat {
    match pc
    case Reading => 0
    case Estimating(_, _) => 1
    case Broadcasting(_) => 2
    case MarkingSubmitted(_) => 3
    case Enqueueing(_) => 4
  }

  function CheckStage(pc: CheckPc): nat {
    match pc
    case Queued => 0
    case Fetching => 1
    case MarkingConfirmed(_) => 2
    case MarkingReverted => 2
    case Loading => 2
    case MarkingExhausted => 3
    case MarkingStuck(_) => 3
    case Rebroadcasting(_) => 4
    case Remarking(_) => 5
    case Reenqueueing(_) => 6
  }

  predicate AboutToEnqueue(p: Proc) {
    (p.Submit? && p.sub.Enqueueing?) || (p.Check? && p.chk.Reenqueueing?)
  }

  /** About to move its operation's row to SUBMITTED. */
  predicate AboutToMark(p: Proc) {
    (p.Submit? && p.sub.MarkingSubmitted?) || (p.Check? && p.chk.Remarking?)
  }

  /** The agent stops, or goes on with its own operation at a later stage; only a mark leads to the queue. */
  predicate Onward(p: Proc, p': Proc) {
    && (|| p'.Done?
        || (p.Submit? && p'.Submit? && p'.h == p.h && p'.signature == p.signature && Stage(p') > Stage(p))
        || (p.Check? && p'.Check? && p'.job == p.job && Stage(p') > Stage(p)))
    && (AboutToEnqueue(p') ==> AboutToMark(p))
  }

  /** One agent moved onward; agents, chain and calls are otherwise as they were. */
  ghost predicate Solo(s: State, s': State, id: Id)
    requires id in s.procs
  {
    && id in s'.procs && s'.procs == s.procs[id := s'.procs[id]] && Onward(s.procs[id], s'.procs[id])
    && s'.nextId == s.nextId && s'.calls == s.calls && s'.mined == s.mined
  }

  /** No agent's entry is taken back. */
  ghost predicate EntryGrows(a: Audit, a': Audit) {
    a.firstBy <= a'.firstBy && a.takenOverBy <= a'.takenOverBy && a.stuckBy <= a'.stuckBy && a.bumpedBy <= a'.bumpedBy
  }

  ghost predicate EntriesGrow(s: State, s': State) {
    forall h :: h in s.audit ==> h in s'.audit && EntryGrows(s.audit[h], s'.audit[h])
  }

  lemma WriteShape(s: State, id: Id, h: OpHash, row: UserOperation, a: Audit, p: Proc)
    requires id in s.procs && Onward(s.procs[id], p) && EntryGrows(AuditOf(s, h), a)
    ensures var s' := Put(Write(s, h, row, a), id, p); Solo(s, s', id) && EntriesGrow(s, s') && s'.sent == s.sent
  {
    hide Onward;
  }

  lemma PutShape(s: State, id: Id, p: Proc)
    requires id in s.procs && Onward(s.procs[id], p)
    ensures var s' := Put(s, id, p);
            && Solo(s, s', id) && EntriesGrow(s, s') && s'.sent == s.sent && s'.rows == s.rows
            && id in s'.procs && s'.procs[id] == p
  {
    hide Onward;
  }

  lemma BroadcastShape(s: State, id: Id, sent: Sent, p: Proc)
    requires id in s.procs && Onward(s.procs[id], p)
    ensures var s' := Put(Broadcast(s, id, sent), id, p);
            Solo(s, s', id) && EntriesGrow(s, s') && s'.sent == s.sent[id := sent] && s'.rows == s.rows
  {
    hide Onward;
  }

  /** The broadcast the agent makes in this step, if it makes one. */
  function SubmitSends(h: OpHash, pc: SubmitPc): Option<Sent> {
    match pc
    case Broadcasting(tx) => Some(Sent(h, FromSubmit, tx))
    case _ => None
  }

  function CheckSends(job: Job, pc: CheckPc): Option<Sent> {
    match pc
    case Rebroadcasting(tx) => Some(Sent(job.h, Replaces(job.txHash), tx))
    case _ => None
  }

  function Extended(sent: map<Id, Sent>, id: Id, b: Option<Sent>): map<Id, Sent> {
    match b
    case None => sent
    case Some(x) => sent[id := x]
  }

  lemma SubmitShape(s: State, id: Id, h: OpHash, signature: Bytes, pc: SubmitPc, env: Env)
    requires id in s.procs && s.procs[id] == Submit(h, signature, pc) && !pc.Enqueueing?
    ensures var s' := StepSubmit(s, id, h, signature, pc, env);
            && Solo(s, s', id) && EntriesGrow(s, s') && s'.sent == Extended(s.sent, id, SubmitSends(h, pc))
            && (pc.MarkingSubmitted? || s'.rows == s.rows)
  {
    hide Solo, EntriesGrow, EntryGrows, Write, Put, Broadcast, SubmittedRow, SubmitAudit, BuildPackedUserOp;
    match pc
    case Reading =>
      if h !in s.rows {
        PutShape(s, id, Done(NotFound));
      } else if s.rows[h].status != PENDING {
        PutShape(s, id, Done(NotPending(s.rows[h].status)));
      } else {
        var built := BuildPackedUserOp(s.rows[h].op, signature);
        PutShape(s, id, if built.Err? then Done(Threw)
                        else Submit(h, signature, Estimating(built.value, s.rows[h].op.entryPoint)));
      }
    case Estimating(userOp, entryPoint) =>
      PutShape(s, id, Submit(h, signature, Broadcasting(Tx(userOp, entryPoint, env.nonce, env.estimatedGas * 120 / 100,
                                                           env.maxFeePerGas, env.maxPriorityFeePerGas))));
    case Broadcasting(tx) => BroadcastShape(s, id, Sent(h, FromSubmit, tx), Submit(h, signature, MarkingSubmitted(tx)));
    case MarkingSubmitted(tx) =>
      if CanMove(s.rows, h, SUBMITTABLE) {
        SubmitEntryGrows(s, id, h);
        WriteShape(s, id, h, SubmittedRow(s.rows[h], tx, signature), SubmitAudit(s, id, h),
                   Submit(h, signature, Enqueueing(tx)));
      } else {
        PutShape(s, id, Done(LostSubmitRace));
      }
  }

  lemma SubmitEntryGrows(s: State, id: Id, h: OpHash)
    requires h in s.rows
    ensures EntryGrows(AuditOf(s, h), SubmitAudit(s, id, h))
  {
  }

  lemma CheckEntriesGrow(s: State, id: Id, h: OpHash)
    ensures EntryGrows(AuditOf(s, h), AuditOf(s, h)) && EntryGrows(AuditOf(s, h), StuckAudit(s, id, h))
    ensures EntryGrows(AuditOf(s, h), BumpAudit(s, id, h))
  {
  }

  /** Looking: the receipt, then the row. While the row is there the check does not stop. */
  lemma LookShape(cfg: Config, s: State, id: Id, job: Job, pc: CheckPc, env: Env)
    requires id in s.procs && s.procs[id] == Check(job, pc) && (pc.Queued? || pc.Fetching? || pc.Loading?)
    ensures var s' := StepCheck(cfg, s, id, job, pc, env);
            && Solo(s, s', id) && EntriesGrow(s, s') && s'.sent == s.sent && s'.rows == s.rows
            && id in s'.procs && (job.h in s.rows ==> s'.procs[id].Check? && s'.procs[id].job == job
                                                      && CheckStage(s'.procs[id].chk) <= 3)
  {
    hide Solo, EntriesGrow, Write, Put, Broadcast, Replacement, ReceiptOf;
    if pc.Queued? {
      PutShape(s, id, Check(job, Fetching));
    } else if pc.Fetching? {
      var receipt := if env.rpcAnswers then ReceiptOf(s.mined, job.txHash) else None;
      PutShape(s, id, Check(job, if receipt.None? then Loading
                                 else if receipt.value.success then MarkingConfirmed(receipt.value)
                                 else MarkingReverted));
    } else if job.h !in s.rows {
      PutShape(s, id, Done(RowMissing));
    } else {
      PutShape(s, id, Check(job, if s.rows[job.h].bumpCount >= cfg.maxAttempts then MarkingExhausted
                                 else MarkingStuck(s.rows[job.h])));
    }
  }

  /** Resolving: a final status, or a lost update. */
  lemma ResolveShape(cfg: Config, s: State, id: Id, job: Job, pc: CheckPc, env: Env)
    requires id in s.procs && s.procs[id] == Check(job, pc)
    requires pc.MarkingConfirmed? || pc.MarkingReverted? || pc.MarkingExhausted?
    ensures var s' := StepCheck(cfg, s, id, job, pc, env); Solo(s, s', id) && EntriesGrow(s, s') && s'.sent == s.sent
  {
    hide Solo, EntriesGrow, EntryGrows, Write, Put, Broadcast, Replacement, ConfirmedRow, FailedRow, AuditOf;
    CheckEntriesGrow(s, id, job.h);
    if !CanMove(s.rows, job.h, RESOLVABLE) {
      PutShape(s, id, Done(LostCheckUpdate));
    } else {
      var row := s.rows[job.h];
      var row' := match pc
        case MarkingConfirmed(receipt) => ConfirmedRow(row, receipt)
        case MarkingReverted => FailedRow(row, TransactionReverted)
        case _ => FailedRow(row, ExceededMaxBumps(cfg.maxAttempts));
      WriteShape(s, id, job.h, row', AuditOf(s, job.h), Done(Completed));
    }
  }

  lemma StickShape(cfg: Config, s: State, id: Id, job: Job, row: UserOperation, env: Env)
    requires id in s.procs && s.procs[id] == Check(job, MarkingStuck(row))
    ensures var s' := StepCheck(cfg, s, id, job, MarkingStuck(row), env);
            Solo(s, s', id) && EntriesGrow(s, s') && s'.sent == s.sent
  {
    hide Solo, EntriesGrow, EntryGrows, Write, Put, Broadcast, Replacement, StuckRow, StuckAudit;
    CheckEntriesGrow(s, id, job.h);
    if !CanMove(s.rows, job.h, STICKABLE) {
      PutShape(s, id, Done(LostCheckUpdate));
    } else {
      var tx := Replacement(cfg, row);
      var p := if tx.Err? then Done(ReplacementThrew) else Check(job, Rebroadcasting(tx.value));
      WriteShape(s, id, job.h, StuckRow(s.rows[job.h]), StuckAudit(s, id, job.h), p);
    }
  }

  lemma RemarkShape(cfg: Config, s: State, id: Id, job: Job, tx: Tx, env: Env)
    requires id in s.procs && s.procs[id] == Check(job, Remarking(tx))
    ensures var s' := StepCheck(cfg, s, id, job, Remarking(tx), env);
            Solo(s, s', id) && EntriesGrow(s, s') && s'.sent == s.sent
  {
    hide Solo, EntriesGrow, EntryGrows, Write, Put, Broadcast, ResubmittedRow, BumpAudit;
    CheckEntriesGrow(s, id, job.h);
    if !CanMove(s.rows, job.h, SUBMITTABLE) {
      PutShape(s, id, Done(LostResubmitRace));
    } else {
      WriteShape(s, id, job.h, ResubmittedRow(s.rows[job.h], tx), BumpAudit(s, id, job.h),
                 Check(job, Reenqueueing(tx)));
    }
  }

  lemma CheckShape(cfg: Config, s: State, id: Id, job: Job, pc: CheckPc, env: Env)
    requires id in s.procs && s.procs[id] == Check(job, pc) && !pc.Reenqueueing?
    ensures var s' := StepCheck(cfg, s, id, job, pc, env);
            Solo(s, s', id) && EntriesGrow(s, s') && s'.sent == Extended(s.sent, id, CheckSends(job, pc))
  {
    hide Solo, EntriesGrow, Put, Broadcast;
    if pc.Rebroadcasting? {
      BroadcastShape(s, id, Sent(job.h, Replaces(job.txHash), pc.tx), Check(job, Remarking(pc.tx)));
    } else {
      hide StepCheck;
      if pc.MarkingStuck? {
        StickShape(cfg, s, id, job, pc.row, env);
      } else if pc.Remarking? {
        RemarkShape(cfg, s, id, job, pc.tx, env);
      } else if pc.Queued? || pc.Fetching? || pc.Loading? {
        LookShape(cfg, s, id, job, pc, env);
      } else {
        ResolveShape(cfg, s, id, job, pc, env);
      }
    }
  }
}
