/** Accounting over whole runs: status histories, bump counts, takeovers and broadcasts. */
module RelayerAudit {
  import opened Numbers
  import opened Schema
  import opened Packing
  import opened UserOpStateMachine
  import opened RelayerProtocol
  import opened RelayerInvariant

  ghost predicate Terminal(status: Status) {
    status == CONFIRMED || status == FAILED
  }

  /** A non-empty prefix of PENDING (SUBMITTED STUCK)* SUBMITTED (CONFIRMED | FAILED). */
  ghost predicate Lifecycle(history: seq<Status>) {
    && |history| > 0 && history[0] == PENDING
    && forall i :: 0 < i < |history| ==>
         if i % 2 == 1 then history[i] == SUBMITTED
         else history[i] == STUCK || (i == |history| - 1 && Terminal(history[i]))
  }

  ghost predicate SubmitSent(s: State, i: Id, h: OpHash) {
    i in s.sent && s.sent[i].h == h && s.sent[i].origin == FromSubmit
  }

  ghost predicate CheckSent(s: State, i: Id, h: OpHash) {
    i in s.sent && s.sent[i].h == h && s.sent[i].origin != FromSubmit
  }

  function Flag(b: bool): nat {
    if b then 1 else 0
  }

  /** How one row's history, bump count and agents add up. */
  ghost predicate Ledger(a: Audit, status: Status, bumpCount: nat) {
    && Lifecycle(a.history) && a.history[|a.history| - 1] == status
    && |a.history| == 1 + |a.firstBy| + |a.stuckBy| + |a.takenOverBy| + |a.bumpedBy| + Flag(Terminal(status))
    && |a.bumpedBy| == bumpCount
    && |a.stuckBy| == |a.bumpedBy| + |a.takenOverBy| + Flag(status == STUCK)
    && |a.firstBy| == Flag(status != PENDING)
    && a.firstBy !! a.takenOverBy
  }

  /** Every agent the ledger names really broadcast, or really exists. */
  ghost predicate Backed(s: State, h: OpHash, a: Audit) {
    && (forall i :: i in a.firstBy ==> SubmitSent(s, i, h))
    && (forall i :: i in a.takenOverBy ==> SubmitSent(s, i, h))
    && (forall i :: i in a.bumpedBy ==> CheckSent(s, i, h))
    && (forall i :: i in a.stuckBy ==> i < s.nextId)
  }

  ghost predicate RowAudit(s: State, h: OpHash)
    requires h in s.rows
  {
    h in s.audit && Ledger(s.audit[h], s.rows[h].status, s.rows[h].bumpCount) && Backed(s, h, s.audit[h])
  }

  ghost predicate SentAudit(s: State, i: Id)
    requires i in s.sent
  {
    && i < s.nextId
    && var h := s.sent[i].h;
    && h in s.rows && h in s.audit
    && (s.sent[i].origin == FromSubmit ==> i in s.calls && s.calls[i] == h)
    && (s.sent[i].origin != FromSubmit ==> i in s.audit[h].stuckBy)
  }

  ghost predicate ProcAudit(s: State, i: Id)
    requires i in s.procs
  {
    match s.procs[i]
    case Submit(h, _, pc) =>
      && i in s.calls && s.calls[i] == h
      && (match pc
          case MarkingSubmitted(tx) =>
            && i in s.sent && s.sent[i] == Sent(h, FromSubmit, tx)
            && i !in AuditOf(s, h).firstBy && i !in AuditOf(s, h).takenOverBy
          case Enqueueing(_) => true
          case _ => i !in s.sent)
    case Check(job, pc) =>
      && (match pc
          case Rebroadcasting(_) => i in AuditOf(s, job.h).stuckBy && i !in s.sent
          case Remarking(tx) =>
            && i in AuditOf(s, job.h).stuckBy && i !in AuditOf(s, job.h).bumpedBy
            && i in s.sent && s.sent[i] == Sent(job.h, Replaces(job.txHash), tx)
          case Reenqueueing(_) => true
          case _ => i !in s.sent && i !in AuditOf(s, job.h).stuckBy)
    case Done(_) => true
  }

  ghost predicate Audited(s: State) {
    && (forall i :: i in s.calls ==> i < s.nextId)
    && (forall i :: i in s.procs ==> i < s.nextId)
    && (forall h :: h in s.rows ==> RowAudit(s, h))
    && (forall i :: i in s.sent ==> SentAudit(s, i))
    && (forall i :: i in s.procs ==> ProcAudit(s, i))
    && s.audit.Keys == s.rows.Keys
  }

  // ----- shapes of step

  /** Nothing but the agent's own place changes. */
  lemma LocalAudit(s: State, id: Id, p: Proc)
    requires Audited(s) && id in s.procs
    requires ProcAudit(Put(s, id, p), id)
    ensures Audited(Put(s, id, p))
  {
    hide Ledger, Backed;
    var s' := Put(s, id, p);
    forall h | h in s'.rows ensures RowAudit(s', h) {
      assert RowAudit(s, h);
      BackedFrame(s, s', h, s.audit[h], s.audit[h]);
    }
    forall i | i in s'.sent ensures SentAudit(s', i) { assert SentAudit(s, i); }
    forall i | i in s'.procs && i != id ensures ProcAudit(s', i) { assert ProcAudit(s, i); }
  }

  lemma StopAudit(s: State, id: Id, outcome: Outcome)
    requires Audited(s) && id in s.procs
    ensures Audited(Finish(s, id, outcome))
  {
    hide Audited;
    LocalAudit(s, id, Done(outcome));
  }

  lemma LifecycleGrows(history: seq<Status>, status: Status)
    requires Lifecycle(history) && !Terminal(history[|history| - 1])
    requires if |history| % 2 == 1 then status == SUBMITTED else status == STUCK || Terminal(status)
    ensures Lifecycle(history + [status])
  {
  }
  /** Odd lengths end in SUBMITTED-able states, even ones in SUBMITTED. */
  lemma LifecycleParity(history: seq<Status>)
    requires Lifecycle(history)
    ensures var last := history[|history| - 1];
            && (last == SUBMITTED <==> |history| % 2 == 0)
            && (last == PENDING <==> |history| == 1)
  {
    var last := |history| - 1;
    assert last > 0 ==> if last % 2 == 1 then history[last] == SUBMITTED
                        else history[last] == STUCK || Terminal(history[last]);
  }

  // ----- ledger entries

  lemma LedgerFirst(a: Audit, id: Id, n: nat)
    requires Ledger(a, PENDING, n) && id !in a.takenOverBy
    ensures Ledger(Moved(a.(firstBy := a.firstBy + {id}), SUBMITTED), SUBMITTED, n)
  {
    LifecycleParity(a.history);
    LifecycleGrows(a.history, SUBMITTED);
    hide Lifecycle;
    assert a.firstBy == {};
    assert |a.firstBy + {id}| == 1;
  }

  lemma LedgerTakeover(a: Audit, id: Id, n: nat)
    requires Ledger(a, STUCK, n) && id !in a.firstBy && id !in a.takenOverBy
    ensures Ledger(Moved(a.(takenOverBy := a.takenOverBy + {id}), SUBMITTED), SUBMITTED, n)
  {
    LifecycleParity(a.history);
    LifecycleGrows(a.history, SUBMITTED);
    hide Lifecycle;
  }

  lemma LedgerStuck(a: Audit, id: Id, n: nat)
    requires Ledger(a, SUBMITTED, n) && id !in a.stuckBy
    ensures Ledger(Moved(a.(stuckBy := a.stuckBy + {id}), STUCK), STUCK, n)
  {
    LifecycleParity(a.history);
    LifecycleGrows(a.history, STUCK);
    hide Lifecycle;
  }

  lemma LedgerBump(a: Audit, id: Id, n: nat)
    requires Ledger(a, STUCK, n) && id !in a.bumpedBy
    ensures Ledger(Moved(a.(bumpedBy := a.bumpedBy + {id}), SUBMITTED), SUBMITTED, n + 1)
  {
    LifecycleParity(a.history);
    LifecycleGrows(a.history, SUBMITTED);
    hide Lifecycle;
  }

  lemma LedgerFinal(a: Audit, status: Status, n: nat)
    requires Ledger(a, SUBMITTED, n) && Terminal(status)
    ensures Ledger(Moved(a, status), status, n)
  {
    LifecycleParity(a.history);
    LifecycleGrows(a.history, status);
    hide Lifecycle;
  }

  // ----- the steps that write a row

  lemma AuditedAt(s: State, id: Id, h: OpHash)
    requires Audited(s) && id in s.procs && h in s.rows
    ensures RowAudit(s, h) && ProcAudit(s, id) && id < s.nextId
  {
  }

  ghost predicate Extends(was: set<Id>, id: Id, grown: set<Id>) {
    was <= grown <= was + {id}
  }

  /** The entry grows by this agent at most, and by it only where the agent really broadcast. */
  ghost predicate Grows(s: State, h: OpHash, id: Id, a: Audit)
    requires h in s.audit
  {
    var was := s.audit[h];
    && Extends(was.firstBy, id, a.firstBy) && Extends(was.takenOverBy, id, a.takenOverBy)
    && Extends(was.stuckBy, id, a.stuckBy) && Extends(was.bumpedBy, id, a.bumpedBy)
    && (a.firstBy == was.firstBy || SubmitSent(s, id, h))
    && (a.takenOverBy == was.takenOverBy || SubmitSent(s, id, h))
    && (a.bumpedBy == was.bumpedBy || CheckSent(s, id, h))
  }

  lemma BackedGrows(s: State, h: OpHash, id: Id, a: Audit)
    requires h in s.audit && Backed(s, h, s.audit[h]) && Grows(s, h, id, a) && id < s.nextId
    ensures Backed(s, h, a)
  {
  }

  /** One row is rewritten and its audit entry grows by this agent at most. */
  lemma WriteAudit(s: State, id: Id, h: OpHash, row: UserOperation, a: Audit, p: Proc)
    requires Audited(s) && id in s.procs && h in s.rows && Grows(s, h, id, a)
    requires Ledger(Moved(a, row.status), row.status, row.bumpCount)
    requires ProcAudit(Put(Write(s, h, row, a), id, p), id)
    ensures Audited(Put(Write(s, h, row, a), id, p))
  {
    hide Ledger, Backed, ProcAudit, SentAudit, Grows;
    AuditedAt(s, id, h);
    BackedGrows(s, h, id, a);
    WriteKeepsRows(s, id, h, row, a, p);
    WriteKeepsOthers(s, id, h, row, a, p);
  }

  lemma WriteKeepsRows(s: State, id: Id, h: OpHash, row: UserOperation, a: Audit, p: Proc)
    requires Audited(s) && id in s.procs && h in s.rows
    requires Ledger(Moved(a, row.status), row.status, row.bumpCount) && Backed(s, h, a)
    ensures forall g :: g in s.rows ==> RowAudit(Put(Write(s, h, row, a), id, p), g)
  {
    hide Ledger, Backed, ProcAudit, SentAudit;
    var s' := Put(Write(s, h, row, a), id, p);
    BackedFrame(s, s', h, a, Moved(a, row.status));
    forall g | g in s.rows ensures RowAudit(s', g) {
      assert RowAudit(s, g);
      BackedFrame(s, s', g, s.audit[g], s.audit[g]);
    }
  }

  lemma WriteKeepsOthers(s: State, id: Id, h: OpHash, row: UserOperation, a: Audit, p: Proc)
    requires Audited(s) && id in s.procs && h in s.rows && Grows(s, h, id, a)
    ensures var s' := Put(Write(s, h, row, a), id, p);
            && (forall i :: i in s.sent ==> SentAudit(s', i))
            && (forall i :: i in s.procs && i != id ==> ProcAudit(s', i))
  {
    hide Ledger, Backed, RowAudit;
    var s' := Put(Write(s, h, row, a), id, p);
    forall i | i in s.sent ensures SentAudit(s', i) { assert SentAudit(s, i); }
    forall i | i in s.procs && i != id ensures ProcAudit(s', i) { assert ProcAudit(s, i); }
  }

  lemma BackedFrame(s: State, s': State, h: OpHash, a: Audit, a': Audit)
    requires Backed(s, h, a)
    requires a' == a.(history := a'.history)
    requires s'.nextId >= s.nextId && forall i :: i in s.sent ==> i in s'.sent && s'.sent[i] == s.sent[i]
    ensures Backed(s', h, a')
  {
  }

  lemma LedgerSubmit(s: State, id: Id, h: OpHash)
    requires h in s.rows && RowAudit(s, h) && CanMove(s.rows, h, SUBMITTABLE)
    requires id !in s.audit[h].firstBy && id !in s.audit[h].takenOverBy
    ensures Ledger(Moved(SubmitAudit(s, id, h), SUBMITTED), SUBMITTED, s.rows[h].bumpCount)
  {
    hide Ledger, Backed;
    if s.rows[h].status == PENDING {
      LedgerFirst(s.audit[h], id, s.rows[h].bumpCount);
    } else {
      LedgerTakeover(s.audit[h], id, s.rows[h].bumpCount);
    }
  }

  lemma SubmitGrows(s: State, id: Id, h: OpHash)
    requires h in s.rows && h in s.audit && SubmitSent(s, id, h)
    ensures Grows(s, h, id, SubmitAudit(s, id, h))
  {
  }

  lemma CheckGrows(s: State, id: Id, h: OpHash)
    requires h in s.audit
    ensures Grows(s, h, id, StuckAudit(s, id, h)) && Grows(s, h, id, AuditOf(s, h))
    ensures CheckSent(s, id, h) ==> Grows(s, h, id, BumpAudit(s, id, h))
  {
  }

  lemma MarkSubmittedAudit(s: State, id: Id, h: OpHash, signature: Bytes, tx: Tx)
    requires Audited(s) && id in s.procs && s.procs[id] == Submit(h, signature, MarkingSubmitted(tx))
    requires CanMove(s.rows, h, SUBMITTABLE)
    ensures Audited(Put(Write(s, h, SubmittedRow(s.rows[h], tx, signature), SubmitAudit(s, id, h)), id,
                        Submit(h, signature, Enqueueing(tx))))
  {
    hide Audited, Ledger, Backed, Decimal, Grows;
    AuditedAt(s, id, h);
    LedgerSubmit(s, id, h);
    hide RowAudit;
    SubmitGrows(s, id, h);
    WriteAudit(s, id, h, SubmittedRow(s.rows[h], tx, signature), SubmitAudit(s, id, h),
               Submit(h, signature, Enqueueing(tx)));
  }

  lemma StickAudit(s: State, id: Id, job: Job, row: UserOperation, p: Proc)
    requires Audited(s) && id in s.procs && s.procs[id] == Check(job, MarkingStuck(row))
    requires CanMove(s.rows, job.h, STICKABLE)
    requires p.Done? || (p.Check? && p.job == job && p.chk.Rebroadcasting?)
    ensures Audited(Put(Write(s, job.h, StuckRow(s.rows[job.h]), StuckAudit(s, id, job.h)), id, p))
  {
    var h := job.h;
    hide Audited, Ledger, Backed, Grows;
    AuditedAt(s, id, h);
    LedgerStuck(s.audit[h], id, s.rows[h].bumpCount);
    hide RowAudit;
    CheckGrows(s, id, h);
    WriteAudit(s, id, h, StuckRow(s.rows[h]), StuckAudit(s, id, h), p);
  }

  lemma RemarkAudit(s: State, id: Id, job: Job, tx: Tx)
    requires Audited(s) && id in s.procs && s.procs[id] == Check(job, Remarking(tx))
    requires CanMove(s.rows, job.h, {STUCK})
    ensures Audited(Put(Write(s, job.h, ResubmittedRow(s.rows[job.h], tx), BumpAudit(s, id, job.h)), id,
                        Check(job, Reenqueueing(tx))))
  {
    hide Audited, Ledger, Backed, Decimal, Grows;
    var h := job.h;
    AuditedAt(s, id, h);
    LedgerBump(s.audit[h], id, s.rows[h].bumpCount);
    hide RowAudit;
    CheckGrows(s, id, h);
    WriteAudit(s, id, h, ResubmittedRow(s.rows[h], tx), BumpAudit(s, id, h), Check(job, Reenqueueing(tx)));
  }

  lemma ResolveAudit(s: State, id: Id, h: OpHash, row: UserOperation)
    requires Audited(s) && id in s.procs && h in s.rows
    requires s.rows[h].status == SUBMITTED && Terminal(row.status) && row.bumpCount == s.rows[h].bumpCount
    ensures Audited(Finish(Write(s, h, row, AuditOf(s, h)), id, Completed))
  {
    hide Audited, Ledger, Backed, Grows;
    AuditedAt(s, id, h);
    LedgerFinal(s.audit[h], row.status, row.bumpCount);
    hide RowAudit;
    CheckGrows(s, id, h);
    WriteAudit(s, id, h, row, AuditOf(s, h), Done(Completed));
  }

  // ----- the other steps

  lemma BroadcastAudit(s: State, id: Id, sent: Sent, p: Proc)
    requires Audited(s) && id in s.procs && id !in s.sent && sent.h in s.rows
    requires sent.origin == FromSubmit ==> id in s.calls && s.calls[id] == sent.h
    requires sent.origin != FromSubmit ==> id in AuditOf(s, sent.h).stuckBy
    requires ProcAudit(Put(Broadcast(s, id, sent), id, p), id)
    ensures Audited(Put(Broadcast(s, id, sent), id, p))
  {
    hide Ledger, Backed;
    var s' := Put(Broadcast(s, id, sent), id, p);
    forall g | g in s.rows ensures RowAudit(s', g) {
      assert RowAudit(s, g);
      BackedFrame(s, s', g, s.audit[g], s.audit[g]);
    }
    forall i | i in s'.sent ensures SentAudit(s', i) { assert i in s.sent ==> SentAudit(s, i); }
    forall i | i in s.procs && i != id ensures ProcAudit(s', i) { assert ProcAudit(s, i); }
  }

  /** A fresh id is in no set and on no chain. */
  lemma FreshId(s: State, h: OpHash)
    requires Audited(s)
    ensures s.nextId !in s.sent && s.nextId !in s.procs && s.nextId !in AuditOf(s, h).stuckBy
  {
    assert s.nextId in s.sent ==> SentAudit(s, s.nextId);
    assert h in s.rows ==> RowAudit(s, h);
  }

  /** A new agent starts: a submit call, or the job an agent enqueues before it stops. */
  lemma SpawnAudit(s: State, s': State)
    requires Audited(s)
    requires s'.rows == s.rows && s'.audit == s.audit && s'.sent == s.sent && s'.nextId == s.nextId + 1
    requires forall i :: i in s.calls ==> i in s'.calls && s'.calls[i] == s.calls[i]
    requires forall i :: i in s'.calls ==> i in s.calls || i == s.nextId
    requires forall i :: i in s'.procs ==>
               i == s.nextId || (i in s.procs && (s'.procs[i] == s.procs[i] || s'.procs[i].Done?))
    requires s.nextId in s'.procs && ProcAudit(s', s.nextId)
    ensures Audited(s')
  {
    hide Ledger, Backed;
    forall g | g in s.rows ensures RowAudit(s', g) {
      assert RowAudit(s, g);
      BackedFrame(s, s', g, s.audit[g], s.audit[g]);
    }
    forall i | i in s'.sent ensures SentAudit(s', i) { assert SentAudit(s, i); }
    forall i | i in s'.procs && i != s.nextId ensures ProcAudit(s', i) { assert ProcAudit(s, i); }
  }

  lemma EnqueueAudit(s: State, id: Id, job: Job)
    requires Audited(s) && id in s.procs
    ensures Audited(Enqueue(s, id, job))
  {
    FreshId(s, job.h);
    hide Audited;
    SpawnAudit(s, Enqueue(s, id, job));
  }

  lemma CallAudit(cfg: Config, s: State, h: OpHash, signature: Bytes)
    requires Audited(s)
    ensures Audited(Step(cfg, s, Call(h, signature)))
  {
    FreshId(s, h);
    assert s.nextId !in s.calls;
    hide Audited;
    SpawnAudit(s, Step(cfg, s, Call(h, signature)));
  }

  /** A new row's empty entry names nobody, like the missing one before it. */
  lemma ProcAuditFrame(s: State, s': State, i: Id)
    requires i in s.procs && ProcAudit(s, i) && i in s'.procs && s'.procs[i] == s.procs[i]
    requires s'.sent == s.sent && s'.calls == s.calls
    requires forall g :: AuditOf(s', g).(history := []) == AuditOf(s, g).(history := [])
    ensures ProcAudit(s', i)
  {
  }

  lemma CreateAudit(cfg: Config, s: State, h: OpHash, op: SponsoredOp)
    requires Audited(s) && h !in s.rows
    ensures Audited(Step(cfg, s, Create(h, op)))
  {
    hide Ledger, Backed, StepSubmit, StepCheck;
    var s' := Step(cfg, s, Create(h, op));
    NewLedger(s', h);
    forall g | g in s.rows ensures RowAudit(s', g) {
      assert RowAudit(s, g);
      BackedFrame(s, s', g, s.audit[g], s.audit[g]);
    }
    forall i | i in s'.sent ensures SentAudit(s', i) { assert SentAudit(s, i); }
    hide ProcAudit;
    forall i | i in s'.procs ensures ProcAudit(s', i) {
      assert ProcAudit(s, i);
      ProcAuditFrame(s, s', i);
    }
  }

  lemma NewLedger(s: State, h: OpHash)
    ensures Ledger(Audit([PENDING], {}, {}, {}, {}), PENDING, 0) && Backed(s, h, Audit([PENDING], {}, {}, {}, {}))
  {
  }

  lemma MineAudit(s: State, s': State)
    requires Audited(s) && s' == s.(mined := s'.mined)
    ensures Audited(s')
  {
    hide Ledger, Backed;
    forall g | g in s.rows ensures RowAudit(s', g) {
      assert RowAudit(s, g);
      BackedFrame(s, s', g, s.audit[g], s.audit[g]);
    }
    forall i | i in s'.sent ensures SentAudit(s', i) { assert SentAudit(s, i); }
    forall i | i in s'.procs ensures ProcAudit(s', i) { assert ProcAudit(s, i); }
  }

  // ----- every event

  lemma CoreAt(cfg: Config, s: State, id: Id)
    requires Core(cfg, s) && id in s.procs
    ensures ProcOk(cfg, s, s.procs[id]) && TokenOk(s, id)
  {
  }

  lemma ProcAuditAt(s: State, id: Id)
    requires Audited(s) && id in s.procs
    ensures ProcAudit(s, id)
  {
  }

  lemma SubmitKeepsAudit(cfg: Config, s: State, id: Id, h: OpHash, signature: Bytes, pc: SubmitPc, env: Env)
    requires Core(cfg, s) && Audited(s) && id in s.procs && s.procs[id] == Submit(h, signature, pc)
    ensures Audited(StepSubmit(s, id, h, signature, pc, env))
  {
    hide Core, Audited, BuildPackedUserOp;
    CoreAt(cfg, s, id);
    ProcAuditAt(s, id);
    match pc
    case Reading => LocalAudit(s, id, StepSubmit(s, id, h, signature, pc, env).procs[id]);
    case Estimating(userOp, entryPoint) => LocalAudit(s, id, StepSubmit(s, id, h, signature, pc, env).procs[id]);
    case Broadcasting(tx) => SubmitBroadcastAudit(cfg, s, id, h, signature, tx);
    case MarkingSubmitted(tx) =>
      if CanMove(s.rows, h, SUBMITTABLE) {
        MarkSubmittedAudit(s, id, h, signature, tx);
      } else {
        StopAudit(s, id, LostSubmitRace);
      }
    case Enqueueing(tx) => EnqueueAudit(s, id, Job(h, TxHash(tx)));
  }

  lemma SubmitBroadcastAudit(cfg: Config, s: State, id: Id, h: OpHash, signature: Bytes, tx: Tx)
    requires Audited(s) && id in s.procs && s.procs[id] == Submit(h, signature, Broadcasting(tx)) && h in s.rows
    ensures Audited(Put(Broadcast(s, id, Sent(h, FromSubmit, tx)), id, Submit(h, signature, MarkingSubmitted(tx))))
  {
    hide Audited, Ledger, Backed;
    AuditedAt(s, id, h);
    SubmitSetsSent(s, id, h);
    BroadcastAudit(s, id, Sent(h, FromSubmit, tx), Submit(h, signature, MarkingSubmitted(tx)));
  }

  /** Whoever marked the row submitted had broadcast first. */
  lemma SubmitSetsSent(s: State, id: Id, h: OpHash)
    requires Audited(s) && h in s.rows && id !in s.sent
    ensures id !in s.audit[h].firstBy && id !in s.audit[h].takenOverBy && id !in s.audit[h].bumpedBy
  {
    assert RowAudit(s, h);
  }

  /** The check has not marked its row STUCK yet. */
  ghost predicate Early(pc: CheckPc) {
    !pc.Rebroadcasting? && !pc.Remarking? && !pc.Reenqueueing?
  }

  /** The table columns a check can rely on where it stands. */
  lemma CheckFacts(cfg: Config, s: State, id: Id, job: Job, pc: CheckPc)
    requires Core(cfg, s) && id in s.procs && s.procs[id] == Check(job, pc)
    ensures job.h in s.rows && s.rows[job.h].status != PENDING
    ensures Early(pc) ==> s.rows[job.h].status == SUBMITTED
  {
    CoreAt(cfg, s, id);
  }

  /** Before it marks its row STUCK a check may go anywhere else, or stop, without an entry in the books. */
  lemma EarlyAudit(s: State, id: Id, job: Job, pc: CheckPc, p: Proc)
    requires Audited(s) && id in s.procs && s.procs[id] == Check(job, pc) && Early(pc)
    requires p.Done? || (p.Check? && p.job == job && Early(p.chk))
    ensures Audited(Put(s, id, p))
  {
    hide Audited;
    ProcAuditAt(s, id);
    LocalAudit(s, id, p);
  }

  lemma CheckKeepsAudit(cfg: Config, s: State, id: Id, job: Job, pc: CheckPc, env: Env)
    requires Core(cfg, s) && Audited(s) && id in s.procs && s.procs[id] == Check(job, pc)
    ensures Audited(StepCheck(cfg, s, id, job, pc, env))
  {
    hide Core, Audited, Replacement, ReceiptOf, Write, ProcAudit, StuckRow, ResubmittedRow, StuckAudit, BumpAudit;
    CheckFacts(cfg, s, id, job, pc);
    match pc
    case Queued => EarlyAudit(s, id, job, pc, Check(job, Fetching));
    case Fetching => EarlyAudit(s, id, job, pc, StepCheck(cfg, s, id, job, pc, env).procs[id]);
    case Loading => EarlyAudit(s, id, job, pc, StepCheck(cfg, s, id, job, pc, env).procs[id]);
    case MarkingConfirmed(receipt) => ResolveAudit(s, id, job.h, ConfirmedRow(s.rows[job.h], receipt));
    case MarkingReverted => ResolveAudit(s, id, job.h, FailedRow(s.rows[job.h], TransactionReverted));
    case MarkingExhausted =>
      ResolveAudit(s, id, job.h, FailedRow(s.rows[job.h], ExceededMaxBumps(cfg.maxAttempts)));
    case MarkingStuck(row) => StickAudit(s, id, job, row, StepCheck(cfg, s, id, job, pc, env).procs[id]);
    case Rebroadcasting(tx) => RebroadcastAudit(s, id, job, tx);
    case Remarking(tx) =>
      if CanMove(s.rows, job.h, SUBMITTABLE) {
        RemarkAudit(s, id, job, tx);
      } else {
        StopAudit(s, id, LostResubmitRace);
      }
    case Reenqueueing(tx) => EnqueueAudit(s, id, Job(job.h, TxHash(tx)));
  }

  lemma RebroadcastAudit(s: State, id: Id, job: Job, tx: Tx)
    requires Audited(s) && id in s.procs && s.procs[id] == Check(job, Rebroadcasting(tx)) && job.h in s.rows
    ensures Audited(Put(Broadcast(s, id, Sent(job.h, Replaces(job.txHash), tx)), id, Check(job, Remarking(tx))))
  {
    hide Audited, Ledger, Backed;
    AuditedAt(s, id, job.h);
    SubmitSetsSent(s, id, job.h);
    BroadcastAudit(s, id, Sent(job.h, Replaces(job.txHash), tx), Check(job, Remarking(tx)));
  }

  lemma StepKeepsAudit(cfg: Config, s: State, e: Event)
    requires Core(cfg, s) && Audited(s) && !e.Redeliver?
    ensures Audited(Step(cfg, s, e))
  {
    hide Core, Audited, StepSubmit, StepCheck;
    match e
    case Create(h, op) => if h !in s.rows { CreateAudit(cfg, s, h, op); }
    case Call(h, signature) => CallAudit(cfg, s, h, signature);
    case Advance(id, env) =>
      if id in s.procs {
        match s.procs[id]
        case Submit(h, signature, pc) => SubmitKeepsAudit(cfg, s, id, h, signature, pc, env);
        case Check(job, pc) => CheckKeepsAudit(cfg, s, id, job, pc, env);
        case Done(_) =>
      }
    case Crash(id) => if id in s.procs && !s.procs[id].Done? { StopAudit(s, id, Crashed); }
    case Mine(id, receipt) => MineAudit(s, Step(cfg, s, e));
  }

  lemma {:induction false} RunKeepsAudit(cfg: Config, events: seq<Event>)
    requires AtMostOnce(events)
    ensures Audited(Run(cfg, Init, events))
  {
    if events == [] {
    } else {
      var front := events[..|events| - 1];
      RunKeepsAudit(cfg, front);
      RunKeepsCore(cfg, front);
      StepKeepsAudit(cfg, Run(cfg, Init, front), events[|events| - 1]);
    }
  }
}
