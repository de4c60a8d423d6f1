/** Runs in which jobs are delivered again: every redelivery can cost one bump beyond the budget, and no more. */
module RelayerRedelivery {
  import opened Wrappers
  import opened Numbers
  import opened Schema
  import opened Packing
  import opened UserOpStateMachine
  import opened RelayerProtocol
  import opened RelayerInvariant
  import opened RelayerAudit
  import opened RelayerShapes
  import opened RelayerTheorems
  import opened RelayerStretches
  import opened RelayerContest

  /** How often a job is handed to a second worker. */
  function Redeliveries(events: seq<Event>): nat {
    if events == [] then 0
    else Redeliveries(events[..|events| - 1]) + Flag(events[|events| - 1].Redeliver?)
  }

  ghost function Holders(s: State, h: OpHash): set<Id> {
    set i | i in s.procs && Holds(s, i, h)
  }

  /** A check that read a row with bumps to spare and is about to mark it STUCK on the strength of it. */
  ghost predicate Licensed(s: State, i: Id, h: OpHash) {
    i in s.procs && s.procs[i].Check? && s.procs[i].job.h == h && s.procs[i].chk.MarkingStuck?
  }

  ghost function Licences(s: State, h: OpHash): set<Id> {
    set i | i in s.procs && Licensed(s, i, h)
  }

  /** The bump the row has made, and the one it is about to make. */
  function Spent(row: UserOperation): nat {
    row.bumpCount + Flag(row.status == STUCK)
  }

  /** Whoever works on an operation after its first mark finds its row past PENDING. */
  ghost predicate Placed(s: State, i: Id)
    requires i in s.procs
  {
    match s.procs[i]
    case Check(job, _) => job.h in s.rows && s.rows[job.h].status != PENDING
    case Submit(h, _, Enqueueing(_)) => h in s.rows && s.rows[h].status != PENDING
    case _ => true
  }

  /**
   * At most one token more than redeliveries while SUBMITTED, none more otherwise; and once the budget is
   * spent, the bumps still licensed are within the redeliveries.
   */
  ghost predicate RowBudget(cfg: Config, s: State, h: OpHash, r: nat)
    requires h in s.rows
  {
    var row := s.rows[h];
    && |Holders(s, h)| <= r + Flag(row.status == SUBMITTED)
    && (Spent(row) >= cfg.maxAttempts ==> Spent(row) + |Licences(s, h)| <= cfg.maxAttempts + r)
    && (row.status == PENDING ==> row.bumpCount == 0)
  }

  ghost predicate Budget(cfg: Config, s: State, r: nat) {
    && (forall i :: i in s.procs ==> i < s.nextId && Placed(s, i))
    && (forall h :: h in s.rows ==> RowBudget(cfg, s, h, r))
  }

  lemma LicencesAreHolders(s: State, h: OpHash)
    ensures Licences(s, h) <= Holders(s, h)
  {
  }

  lemma PendingHasNobody(cfg: Config, s: State, h: OpHash, r: nat)
    requires Budget(cfg, s, r) && h in s.rows && s.rows[h].status == PENDING
    ensures Holders(s, h) == {} && Licences(s, h) == {}
  {
    hide RowBudget;
    assert forall i :: i in s.procs ==> Placed(s, i);
  }

  /** A step in which rows keep their place and nobody gains a token or a licence. */
  lemma BudgetFrame(cfg: Config, s: State, s': State, r: nat)
    requires Budget(cfg, s, r)
    requires forall i :: i in s'.procs ==> i < s'.nextId && Placed(s', i)
    requires forall h :: h in s'.rows ==>
               || (h in s.rows && s'.rows[h] == s.rows[h] && Holders(s', h) <= Holders(s, h)
                   && Licences(s', h) <= Licences(s, h))
               || RowBudget(cfg, s', h, r)
    ensures Budget(cfg, s', r)
  {
    hide Holders, Licences, Placed;
    forall h | h in s'.rows ensures RowBudget(cfg, s', h, r) {
      if !RowBudget(cfg, s', h, r) {
        SubsetSize(Holders(s', h), Holders(s, h));
        SubsetSize(Licences(s', h), Licences(s, h));
      }
    }
  }

  /** Agents other than `id` hold what they held. */
  lemma OthersHold(s: State, s': State, id: Id, h: OpHash)
    requires id in s.procs && id in s'.procs && s'.procs == s.procs[id := s'.procs[id]]
    ensures Holders(s', h) - {id} == Holders(s, h) - {id} && Licences(s', h) - {id} == Licences(s, h) - {id}
    ensures id in Holders(s', h) <==> Holds(s', id, h)
    ensures id in Holders(s, h) <==> Holds(s, id, h)
    ensures id in Licences(s', h) <==> Licensed(s', id, h)
    ensures id in Licences(s, h) <==> Licensed(s, id, h)
  {
    forall i | i != id
      ensures (i in Holders(s', h) <==> i in Holders(s, h)) && (i in Licences(s', h) <==> i in Licences(s, h))
    {
    }
  }

  /** What an agent's step does to one row's books: the counts move by the agent's own token and licence. */
  lemma Counts(s: State, s': State, id: Id, h: OpHash)
    requires id in s.procs && id in s'.procs && s'.procs == s.procs[id := s'.procs[id]]
    ensures |Holders(s', h)| == |Holders(s, h)| + Flag(Holds(s', id, h)) - Flag(Holds(s, id, h))
    ensures |Licences(s', h)| == |Licences(s, h)| + Flag(Licensed(s', id, h)) - Flag(Licensed(s, id, h))
  {
    OthersHold(s, s', id, h);
    hide Holders, Licences, Holds, Licensed;
    OneApart(Holders(s, h), Holders(s', h), id);
    OneApart(Licences(s, h), Licences(s', h), id);
  }

  lemma OneApart(a: set<Id>, b: set<Id>, id: Id)
    requires a - {id} == b - {id}
    ensures |b| == |a| + Flag(id in b) - Flag(id in a)
  {
    assert a == (a - {id}) + (if id in a then {id} else {});
    assert b == (b - {id}) + (if id in b then {id} else {});
  }

  /** The agent moves and row `h` alone may change; its other rows' books are untouched. */
  lemma AgentBudget(cfg: Config, s: State, s': State, id: Id, h: OpHash, r: nat)
    requires Budget(cfg, s, r) && id in s.procs && id in s'.procs && s'.procs == s.procs[id := s'.procs[id]]
    requires h in s.rows && h in s'.rows && s'.rows == s.rows[h := s'.rows[h]] && s'.nextId == s.nextId
    requires s'.rows[h].status == PENDING ==> s.rows[h].status == PENDING
    requires Placed(s', id) && RowBudget(cfg, s', h, r)
    requires forall g :: g != h ==> !Holds(s', id, g) && !Licensed(s', id, g)
    ensures Budget(cfg, s', r)
  {
    hide RowBudget, Holders, Licences, Holds, Licensed;
    forall i | i in s'.procs ensures i < s'.nextId && Placed(s', i) {
      assert i in s.procs && Placed(s, i);
    }
    forall g | g in s'.rows && g != h ensures Holders(s', g) <= Holders(s, g) && Licences(s', g) <= Licences(s, g) {
      OthersHold(s, s', id, g);
      LessOrEqual(Holders(s, g), Holders(s', g), id);
      LessOrEqual(Licences(s, g), Licences(s', g), id);
    }
    BudgetFrame(cfg, s, s', r);
  }

  lemma LessOrEqual(a: set<Id>, b: set<Id>, id: Id)
    requires a - {id} == b - {id} && (id in b ==> id in a)
    ensures b <= a
  {
    forall i | i in b ensures i in a {
      assert i != id ==> i in b - {id};
    }
  }

  // ----- the steps that write a row

  /** Winning the row: one token more, and the row is SUBMITTED for it. */
  lemma MarkBudgets(cfg: Config, s: State, id: Id, h: OpHash, row: UserOperation, a: Audit, p: Proc, r: nat)
    requires Budget(cfg, s, r) && id in s.procs && h in s.rows && CanMove(s.rows, h, SUBMITTABLE)
    requires row.status == SUBMITTED && AboutToEnqueue(p) && !AboutToEnqueue(s.procs[id])
    requires p.Submit? ==> p.h == h && row.bumpCount == s.rows[h].bumpCount
    requires p.Check? ==> p.job.h == h && s.rows[h].status == STUCK && row.bumpCount == s.rows[h].bumpCount + 1
    ensures Budget(cfg, Put(Write(s, h, row, a), id, p), r)
  {
    var s' := Put(Write(s, h, row, a), id, p);
    Counts(s, s', id, h);
    if s.rows[h].status == PENDING {
      PendingHasNobody(cfg, s, h, r);
    }
    assert RowBudget(cfg, s, h, r);
    hide Holders, Licences, Budget;
    assert RowBudget(cfg, s', h, r);
    AgentBudget(cfg, s, s', id, h, r);
  }

  /** Marking STUCK spends the agent's token and its licence. */
  lemma StickBudget(cfg: Config, s: State, id: Id, job: Job, row: UserOperation, a: Audit, p: Proc, r: nat)
    requires Budget(cfg, s, r) && id in s.procs && s.procs[id] == Check(job, MarkingStuck(row))
    requires CanMove(s.rows, job.h, STICKABLE)
    requires p.Done? || (p.Check? && p.job == job && p.chk.Rebroadcasting?)
    ensures Budget(cfg, Put(Write(s, job.h, StuckRow(s.rows[job.h]), a), id, p), r)
  {
    var h := job.h;
    var s' := Put(Write(s, h, StuckRow(s.rows[h]), a), id, p);
    Counts(s, s', id, h);
    LicencesAreHolders(s, h);
    SubsetSize(Licences(s, h), Holders(s, h));
    assert RowBudget(cfg, s, h, r);
    assert Licensed(s, id, h) && Holds(s, id, h);
    hide Holders, Licences, Budget;
    assert RowBudget(cfg, s', h, r);
    AgentBudget(cfg, s, s', id, h, r);
  }

  /** A final status spends the agent's token. */
  lemma ResolveBudget(cfg: Config, s: State, id: Id, h: OpHash, row: UserOperation, a: Audit, r: nat)
    requires Budget(cfg, s, r) && id in s.procs && h in s.rows && Holds(s, id, h) && !Licensed(s, id, h)
    requires Terminal(row.status) && row.bumpCount == s.rows[h].bumpCount
    ensures Budget(cfg, Put(Write(s, h, row, a), id, Done(Completed)), r)
  {
    var s' := Put(Write(s, h, row, a), id, Done(Completed));
    Counts(s, s', id, h);
    assert RowBudget(cfg, s, h, r);
    hide Holders, Licences, Budget;
    assert RowBudget(cfg, s', h, r);
    AgentBudget(cfg, s, s', id, h, r);
  }

  // ----- the other steps

  /** The agent moves on with no more tokens or licences than it had. */
  lemma QuietBudget(cfg: Config, s: State, s': State, id: Id, r: nat)
    requires Budget(cfg, s, r) && id in s.procs && id in s'.procs && s'.procs == s.procs[id := s'.procs[id]]
    requires s'.rows == s.rows && s'.nextId == s.nextId && Placed(s', id)
    requires forall g :: (Holds(s', id, g) ==> Holds(s, id, g)) && (Licensed(s', id, g) ==> Licensed(s, id, g))
    ensures Budget(cfg, s', r)
  {
    hide RowBudget, Holders, Licences, Holds, Licensed;
    forall i | i in s'.procs ensures i < s'.nextId && Placed(s', i) {
      assert i in s.procs && Placed(s, i);
    }
    forall g | g in s'.rows ensures Holders(s', g) <= Holders(s, g) && Licences(s', g) <= Licences(s, g) {
      OthersHold(s, s', id, g);
      LessOrEqual(Holders(s, g), Holders(s', g), id);
      LessOrEqual(Licences(s, g), Licences(s', g), id);
    }
    BudgetFrame(cfg, s, s', r);
  }

  /** Reading a row with bumps to spare earns a licence; there are never more of them than tokens. */
  lemma LicenceBudget(cfg: Config, s: State, id: Id, job: Job, r: nat)
    requires Budget(cfg, s, r) && id in s.procs && s.procs[id] == Check(job, Loading)
    requires job.h in s.rows && s.rows[job.h].bumpCount < cfg.maxAttempts
    ensures Budget(cfg, Put(s, id, Check(job, MarkingStuck(s.rows[job.h]))), r)
  {
    var h := job.h;
    var s' := Put(s, id, Check(job, MarkingStuck(s.rows[h])));
    Counts(s, s', id, h);
    LicencesAreHolders(s', h);
    SubsetSize(Licences(s', h), Holders(s', h));
    assert RowBudget(cfg, s, h, r) && Placed(s, id);
    assert Holds(s', id, h) && Holds(s, id, h);
    hide Holders, Licences, Budget;
    assert RowBudget(cfg, s', h, r);
    AgentBudget(cfg, s, s', id, h, r);
  }

  lemma SubmitBudgets(cfg: Config, s: State, id: Id, h: OpHash, signature: Bytes, pc: SubmitPc, env: Env, r: nat)
    requires Budget(cfg, s, r) && id in s.procs && s.procs[id] == Submit(h, signature, pc)
    ensures Budget(cfg, StepSubmit(s, id, h, signature, pc, env), r)
  {
    hide Budget, StepSubmit;
    if pc.MarkingSubmitted? {
      SubmitMarkBudget(cfg, s, id, h, signature, pc.tx, env, r);
    } else if pc.Enqueueing? {
      SubmitEnqueueBudget(cfg, s, id, h, signature, pc.tx, env, r);
    } else {
      SubmitQuietBudget(cfg, s, id, h, signature, pc, env, r);
    }
  }

  lemma SubmitMarkBudget(cfg: Config, s: State, id: Id, h: OpHash, signature: Bytes, tx: Tx, env: Env, r: nat)
    requires Budget(cfg, s, r) && id in s.procs && s.procs[id] == Submit(h, signature, MarkingSubmitted(tx))
    ensures Budget(cfg, StepSubmit(s, id, h, signature, MarkingSubmitted(tx), env), r)
  {
    hide Budget, Write, SubmitAudit;
    if CanMove(s.rows, h, SUBMITTABLE) {
      MarkBudgets(cfg, s, id, h, SubmittedRow(s.rows[h], tx, signature), SubmitAudit(s, id, h),
                  Submit(h, signature, Enqueueing(tx)), r);
    } else {
      QuietBudget(cfg, s, Finish(s, id, LostSubmitRace), id, r);
    }
  }

  lemma SubmitQuietBudget(cfg: Config, s: State, id: Id, h: OpHash, signature: Bytes, pc: SubmitPc, env: Env, r: nat)
    requires Budget(cfg, s, r) && id in s.procs && s.procs[id] == Submit(h, signature, pc)
    requires !pc.MarkingSubmitted? && !pc.Enqueueing?
    ensures Budget(cfg, StepSubmit(s, id, h, signature, pc, env), r)
  {
    hide Budget, StepSubmit;
    SubmitShape(s, id, h, signature, pc, env);
    QuietBudget(cfg, s, StepSubmit(s, id, h, signature, pc, env), id, r);
  }

  /** The token passes on under a new id. */
  lemma EnqueueBudgets(cfg: Config, s: State, id: Id, job: Job, r: nat)
    requires Budget(cfg, s, r) && id in s.procs && AboutToEnqueue(s.procs[id]) && Token(s.procs[id]) == Some(job)
    ensures Budget(cfg, Enqueue(s, id, job), r)
  {
    var s' := Enqueue(s, id, job);
    assert Placed(s, id) && s.nextId !in s.procs;
    var s1 := Put(s, id, Done(Completed));
    QuietBudget(cfg, s, s1, id, r);
    hide RowBudget;
    forall i | i in s'.procs ensures i < s'.nextId && Placed(s', i) {
      assert i in s.procs ==> Placed(s, i);
    }
    forall g | g in s'.rows ensures RowBudget(cfg, s', g, r) {
      Swapped(s, s', id, g, job);
      SameBooks(cfg, s, s', g, r);
    }
  }

  lemma Swapped(s: State, s': State, id: Id, g: OpHash, job: Job)
    requires id in s.procs && s.nextId !in s.procs && Token(s.procs[id]) == Some(job) && AboutToEnqueue(s.procs[id])
    requires s' == Enqueue(s, id, job)
    ensures |Holders(s', g)| == |Holders(s, g)| && Licences(s', g) == Licences(s, g)
  {
    forall i ensures i in Licences(s', g) <==> i in Licences(s, g) {
    }
    if job.h == g {
      assert Holders(s', g) == Holders(s, g) - {id} + {s.nextId};
      assert id in Holders(s, g) && s.nextId !in Holders(s, g);
    } else {
      assert Holders(s', g) == Holders(s, g);
    }
  }

  lemma SameBooks(cfg: Config, s: State, s': State, g: OpHash, r: nat)
    requires g in s.rows && RowBudget(cfg, s, g, r) && g in s'.rows && s'.rows[g] == s.rows[g]
    requires |Holders(s', g)| <= |Holders(s, g)| && Licences(s', g) == Licences(s, g)
    ensures RowBudget(cfg, s', g, r)
  {
    hide Holders, Licences;
  }

  lemma SubmitEnqueueBudget(cfg: Config, s: State, id: Id, h: OpHash, signature: Bytes, tx: Tx, env: Env, r: nat)
    requires Budget(cfg, s, r) && id in s.procs && s.procs[id] == Submit(h, signature, Enqueueing(tx))
    ensures Budget(cfg, StepSubmit(s, id, h, signature, Enqueueing(tx), env), r)
  {
    hide Budget, Enqueue;
    EnqueueBudgets(cfg, s, id, Job(h, TxHash(tx)), r);
  }

  lemma CheckBudgets(cfg: Config, s: State, id: Id, job: Job, pc: CheckPc, env: Env, r: nat)
    requires Budget(cfg, s, r) && id in s.procs && s.procs[id] == Check(job, pc)
    ensures Budget(cfg, StepCheck(cfg, s, id, job, pc, env), r)
  {
    hide Budget, StepCheck;
    match pc
    case MarkingConfirmed(_) => CheckResolveBudget(cfg, s, id, job, pc, env, r);
    case MarkingReverted => CheckResolveBudget(cfg, s, id, job, pc, env, r);
    case MarkingExhausted => CheckResolveBudget(cfg, s, id, job, pc, env, r);
    case Loading => CheckLoadBudget(cfg, s, id, job, env, r);
    case MarkingStuck(row) => CheckStickBudget(cfg, s, id, job, row, env, r);
    case Remarking(tx) => CheckRemarkBudget(cfg, s, id, job, tx, env, r);
    case Reenqueueing(tx) => CheckEnqueueBudget(cfg, s, id, job, tx, env, r);
    case _ => CheckQuietBudget(cfg, s, id, job, pc, env, r);
  }

  lemma PlacedAt(cfg: Config, s: State, id: Id, r: nat)
    requires Budget(cfg, s, r) && id in s.procs
    ensures Placed(s, id)
  {
  }

  lemma CheckQuietBudget(cfg: Config, s: State, id: Id, job: Job, pc: CheckPc, env: Env, r: nat)
    requires Budget(cfg, s, r) && id in s.procs && s.procs[id] == Check(job, pc)
    requires pc.Queued? || pc.Fetching? || pc.Rebroadcasting?
    ensures Budget(cfg, StepCheck(cfg, s, id, job, pc, env), r)
  {
    hide Budget, ReceiptOf, Replacement;
    PlacedAt(cfg, s, id, r);
    if pc.Rebroadcasting? {
      QuietBudget(cfg, s,
                  Put(Broadcast(s, id, Sent(job.h, Replaces(job.txHash), pc.tx)), id, Check(job, Remarking(pc.tx))),
                  id, r);
    } else if pc.Queued? {
      QuietBudget(cfg, s, Put(s, id, Check(job, Fetching)), id, r);
    } else {
      var receipt := if env.rpcAnswers then ReceiptOf(s.mined, job.txHash) else None;
      QuietBudget(cfg, s, Put(s, id, Check(job, if receipt.None? then Loading
        else if receipt.value.success then MarkingConfirmed(receipt.value) else MarkingReverted)), id, r);
    }
  }

  lemma CheckLoadBudget(cfg: Config, s: State, id: Id, job: Job, env: Env, r: nat)
    requires Budget(cfg, s, r) && id in s.procs && s.procs[id] == Check(job, Loading)
    ensures Budget(cfg, StepCheck(cfg, s, id, job, Loading, env), r)
  {
    hide Budget, Replacement, Write;
    PlacedAt(cfg, s, id, r);
    if s.rows[job.h].bumpCount >= cfg.maxAttempts {
      QuietBudget(cfg, s, Put(s, id, Check(job, MarkingExhausted)), id, r);
    } else {
      LicenceBudget(cfg, s, id, job, r);
    }
  }

  lemma CheckResolveBudget(cfg: Config, s: State, id: Id, job: Job, pc: CheckPc, env: Env, r: nat)
    requires Budget(cfg, s, r) && id in s.procs && s.procs[id] == Check(job, pc)
    requires pc.MarkingConfirmed? || pc.MarkingReverted? || pc.MarkingExhausted?
    ensures Budget(cfg, StepCheck(cfg, s, id, job, pc, env), r)
  {
    hide Budget, Replacement, Write, AuditOf;
    PlacedAt(cfg, s, id, r);
    if CanMove(s.rows, job.h, RESOLVABLE) {
      var row := if pc.MarkingConfirmed? then ConfirmedRow(s.rows[job.h], pc.receipt)
                 else FailedRow(s.rows[job.h], if pc.MarkingReverted? then TransactionReverted
                                               else ExceededMaxBumps(cfg.maxAttempts));
      ResolveBudget(cfg, s, id, job.h, row, AuditOf(s, job.h), r);
    } else {
      QuietBudget(cfg, s, Finish(s, id, LostCheckUpdate), id, r);
    }
  }

  lemma CheckStickBudget(cfg: Config, s: State, id: Id, job: Job, row: UserOperation, env: Env, r: nat)
    requires Budget(cfg, s, r) && id in s.procs && s.procs[id] == Check(job, MarkingStuck(row))
    ensures Budget(cfg, StepCheck(cfg, s, id, job, MarkingStuck(row), env), r)
  {
    hide Budget, Replacement, Write, StuckAudit, StuckRow;
    if CanMove(s.rows, job.h, STICKABLE) {
      var tx := Replacement(cfg, row);
      StickBudget(cfg, s, id, job, row, StuckAudit(s, id, job.h),
                  if tx.Err? then Done(ReplacementThrew) else Check(job, Rebroadcasting(tx.value)), r);
    } else {
      QuietBudget(cfg, s, Finish(s, id, LostCheckUpdate), id, r);
    }
  }

  lemma CheckRemarkBudget(cfg: Config, s: State, id: Id, job: Job, tx: Tx, env: Env, r: nat)
    requires Budget(cfg, s, r) && id in s.procs && s.procs[id] == Check(job, Remarking(tx))
    ensures Budget(cfg, StepCheck(cfg, s, id, job, Remarking(tx), env), r)
  {
    hide Budget, Write, BumpAudit;
    PlacedAt(cfg, s, id, r);
    if CanMove(s.rows, job.h, SUBMITTABLE) {
      MarkBudgets(cfg, s, id, job.h, ResubmittedRow(s.rows[job.h], tx), BumpAudit(s, id, job.h),
                  Check(job, Reenqueueing(tx)), r);
    } else {
      QuietBudget(cfg, s, Finish(s, id, LostResubmitRace), id, r);
    }
  }

  lemma CheckEnqueueBudget(cfg: Config, s: State, id: Id, job: Job, tx: Tx, env: Env, r: nat)
    requires Budget(cfg, s, r) && id in s.procs && s.procs[id] == Check(job, Reenqueueing(tx))
    ensures Budget(cfg, StepCheck(cfg, s, id, job, Reenqueueing(tx), env), r)
  {
    hide Budget, Enqueue;
    EnqueueBudgets(cfg, s, id, Job(job.h, TxHash(tx)), r);
  }

  // ----- every event

  /** A second worker gets the job: one token more, paid for by the redelivery. */
  lemma RedeliverBudget(cfg: Config, s: State, id: Id, r: nat)
    requires Budget(cfg, s, r)
    ensures Budget(cfg, Step(cfg, s, Redeliver(id)), r + 1)
  {
    var s' := Step(cfg, s, Redeliver(id));
    assert s.nextId !in s.procs;
    hide StepSubmit, StepCheck, RowBudget;
    forall i | i in s'.procs ensures i < s'.nextId && Placed(s', i) {
      assert i in s.procs ==> Placed(s, i);
      assert id in s.procs ==> Placed(s, id);
    }
    forall h | h in s'.rows ensures RowBudget(cfg, s', h, r + 1) {
      OneMoreHolder(s, s', h);
      MoreBooks(cfg, s, s', h, r);
    }
  }

  lemma OneMoreHolder(s: State, s': State, h: OpHash)
    requires s.nextId !in s.procs
    requires s'.procs == s.procs
          || exists job :: s'.procs == s.procs[s.nextId := Check(job, Queued)]
    ensures |Holders(s', h)| <= |Holders(s, h)| + 1 && Licences(s', h) == Licences(s, h)
  {
    forall i ensures i in Licences(s', h) <==> i in Licences(s, h) {
    }
    assert Holders(s', h) <= Holders(s, h) + {s.nextId};
    SubsetSize(Holders(s', h), Holders(s, h) + {s.nextId});
  }

  lemma MoreBooks(cfg: Config, s: State, s': State, h: OpHash, r: nat)
    requires h in s.rows && RowBudget(cfg, s, h, r) && h in s'.rows && s'.rows[h] == s.rows[h]
    requires |Holders(s', h)| <= |Holders(s, h)| + 1 && Licences(s', h) == Licences(s, h)
    ensures RowBudget(cfg, s', h, r + 1)
  {
    hide Holders, Licences;
  }

  lemma CreateBudget(cfg: Config, s: State, h: OpHash, op: SponsoredOp, r: nat)
    requires Budget(cfg, s, r) && h !in s.rows
    ensures Budget(cfg, Step(cfg, s, Create(h, op)), r)
  {
    var s' := Step(cfg, s, Create(h, op));
    hide StepSubmit, StepCheck;
    forall i | i in s'.procs ensures i < s'.nextId && Placed(s', i) {
      assert Placed(s, i);
    }
    assert forall i :: i in s.procs ==> Placed(s, i);
    assert Holders(s', h) == {} && Licences(s', h) == {};
    assert RowBudget(cfg, s', h, r);
    hide RowBudget;
    forall g | g in s.rows ensures Holders(s', g) <= Holders(s, g) && Licences(s', g) <= Licences(s, g) {
    }
    BudgetFrame(cfg, s, s', r);
  }

  lemma CallBudget(cfg: Config, s: State, h: OpHash, signature: Bytes, r: nat)
    requires Budget(cfg, s, r)
    ensures Budget(cfg, Step(cfg, s, Call(h, signature)), r)
  {
    var s' := Step(cfg, s, Call(h, signature));
    assert s.nextId !in s.procs;
    hide StepSubmit, StepCheck, RowBudget;
    forall i | i in s'.procs ensures i < s'.nextId && Placed(s', i) {
      assert i in s.procs ==> Placed(s, i);
    }
    forall g | g in s.rows ensures Holders(s', g) <= Holders(s, g) && Licences(s', g) <= Licences(s, g) {
    }
    BudgetFrame(cfg, s, s', r);
  }

  lemma MineBudget(cfg: Config, s: State, id: Id, receipt: Receipt, r: nat)
    requires Budget(cfg, s, r)
    ensures Budget(cfg, Step(cfg, s, Mine(id, receipt)), r)
  {
    var s' := Step(cfg, s, Mine(id, receipt));
    hide StepSubmit, StepCheck, RowBudget;
    forall i | i in s'.procs ensures i < s'.nextId && Placed(s', i) {
      assert Placed(s, i);
    }
    forall g | g in s.rows ensures Holders(s', g) <= Holders(s, g) && Licences(s', g) <= Licences(s, g) {
    }
    BudgetFrame(cfg, s, s', r);
  }

  lemma StepKeepsBudget(cfg: Config, s: State, e: Event, r: nat)
    requires Budget(cfg, s, r)
    ensures Budget(cfg, Step(cfg, s, e), r + Flag(e.Redeliver?))
  {
    hide Budget, StepSubmit, StepCheck;
    match e
    case Create(h, op) => if h !in s.rows { CreateBudget(cfg, s, h, op, r); }
    case Call(h, signature) => CallBudget(cfg, s, h, signature, r);
    case Advance(id, env) =>
      if id in s.procs {
        match s.procs[id]
        case Submit(h, signature, pc) => SubmitBudgets(cfg, s, id, h, signature, pc, env, r);
        case Check(job, pc) => CheckBudgets(cfg, s, id, job, pc, env, r);
        case Done(_) =>
      }
    case Crash(id) =>
      if id in s.procs && !s.procs[id].Done? { QuietBudget(cfg, s, Finish(s, id, Crashed), id, r); }
    case Redeliver(id) => RedeliverBudget(cfg, s, id, r);
    case Mine(id, receipt) => MineBudget(cfg, s, id, receipt, r);
  }

  lemma {:induction false} RunKeepsBudget(cfg: Config, events: seq<Event>)
    ensures Budget(cfg, Reached(cfg, events), Redeliveries(events))
  {
    if events == [] {
    } else {
      var front := events[..|events| - 1];
      RunKeepsBudget(cfg, front);
      hide Budget, Step;
      StepKeepsBudget(cfg, Reached(cfg, front), events[|events| - 1], Redeliveries(front));
    }
  }

  /** In every run whatsoever, a row is bumped at most MAX + r times, r being the number of redeliveries. */
  lemma BumpsWithinRedeliveries(cfg: Config, events: seq<Event>, h: OpHash)
    requires h in Reached(cfg, events).rows
    ensures Reached(cfg, events).rows[h].bumpCount <= cfg.maxAttempts + Redeliveries(events)
  {
    RunKeepsBudget(cfg, events);
    assert RowBudget(cfg, Reached(cfg, events), h, Redeliveries(events));
  }

  // ----- every redelivery can be made to count

  lemma {:induction false} RedeliveriesConcat(a: seq<Event>, b: seq<Event>)
    ensures Redeliveries(a + b) == Redeliveries(a) + Redeliveries(b)
  {
    if b == [] {
      assert a + b == a;
    } else {
      var front := b[..|b| - 1];
      RedeliveriesConcat(a, front);
      assert (a + b)[..|a + b| - 1] == a + front;
    }
  }

  lemma {:induction false} PlainRedeliversNothing(events: seq<Event>)
    requires Plain(events)
    ensures Redeliveries(events) == 0
  {
    if events == [] {
    } else {
      PlainRedeliversNothing(events[..|events| - 1]);
      assert !events[|events| - 1].Redeliver?;
    }
  }

  /** Workers `from` to `from` + n have the same job. */
  ghost predicate Twins(s: State, job: Job, from: Id, n: nat, pc: CheckPc) {
    forall i :: from <= i < from + n ==> i in s.procs && s.procs[i] == Check(job, pc)
  }

  /** n more workers get the job of worker `id`. */
  lemma {:induction false} Redelivered(cfg: Config, s: State, id: Id, job: Job, n: nat) returns (events: seq<Event>)
    requires id in s.procs && s.procs[id] == Check(job, Queued) && id < s.nextId
    ensures Redeliveries(events) == n
    ensures var s' := Run(cfg, s, events);
            && s'.rows == s.rows && id in s'.procs && s'.procs[id] == Check(job, Queued) && s'.nextId == s.nextId + n
            && Twins(s', job, s.nextId, n, Queued)
  {
    hide Step;
    if n == 0 {
      events := [];
    } else {
      var before := Redelivered(cfg, s, id, job, n - 1);
      var s1 := Run(cfg, s, before);
      events := before + [Redeliver(id)];
      assert events[..|events| - 1] == before;
      RedeliverIs(cfg, s1, id, job);
    }
  }

  lemma RedeliverIs(cfg: Config, s: State, id: Id, job: Job)
    requires id in s.procs && s.procs[id] == Check(job, Queued)
    ensures Step(cfg, s, Redeliver(id)) == s.(procs := s.procs[s.nextId := Check(job, Queued)], nextId := s.nextId + 1)
  {
    hide StepSubmit, StepCheck;
  }

  /** All of them read the row before any of them marks it. */
  lemma {:induction false} AllRead(cfg: Config, s: State, job: Job, from: Id, n: nat) returns (events: seq<Event>)
    requires Twins(s, job, from, n, Queued) && job.h in s.rows && s.rows[job.h].bumpCount < cfg.maxAttempts
    ensures Plain(events)
    ensures var s' := Run(cfg, s, events);
            && s'.rows == s.rows && Twins(s', job, from, n, MarkingStuck(s.rows[job.h]))
            && (forall i :: i in s.procs && !(from <= i < from + n) ==> i in s'.procs && s'.procs[i] == s.procs[i])
  {
    hide Step;
    if n == 0 {
      events := [];
    } else {
      var before := AllRead(cfg, s, job, from, n - 1);
      var s1, id := Run(cfg, s, before), from + n - 1;
      hide Run;
      StickStretch(cfg, s1, id, job);
      events := before + Thrice(id, SILENT);
      RunConcat(cfg, s, before, Thrice(id, SILENT));
      PlainConcat(before, Thrice(id, SILENT));
    }
  }

  /** Then each of them bumps. */
  lemma {:induction false} AllBump(cfg: Config, s: State, job: Job, row: UserOperation, from: Id, n: nat)
    returns (events: seq<Event>)
    requires Twins(s, job, from, n, MarkingStuck(row)) && Replacement(cfg, row).Ok?
    requires job.h in s.rows && s.rows[job.h].status == SUBMITTED
    ensures Plain(events)
    ensures var s' := Run(cfg, s, events);
            && job.h in s'.rows && s'.rows[job.h].status == SUBMITTED
            && s'.rows[job.h].bumpCount == s.rows[job.h].bumpCount + n
            && (forall i :: i in s.procs && !(from <= i < from + n) ==> i in s'.procs && s'.procs[i] == s.procs[i])
  {
    hide Step, Replacement, Decimal;
    if n == 0 {
      events := [];
    } else {
      var before := AllBump(cfg, s, job, row, from, n - 1);
      var s1, id := Run(cfg, s, before), from + n - 1;
      hide Run;
      BumpStretch(cfg, s1, id, job, row);
      events := before + Thrice(id, SILENT);
      RunConcat(cfg, s, before, Thrice(id, SILENT));
      PlainConcat(before, Thrice(id, SILENT));
    }
  }

  /** Worker `id` and its r twins spend one remaining bump r + 1 times. */
  lemma TwinBumps(cfg: Config, s: State, id: Id, job: Job, r: nat) returns (events: seq<Event>)
    requires id in s.procs && s.procs[id] == Check(job, Queued) && id < s.nextId
    requires job.h in s.rows && s.rows[job.h].status == SUBMITTED && s.rows[job.h].bumpCount < cfg.maxAttempts
    requires Replacement(cfg, s.rows[job.h]).Ok?
    ensures Redeliveries(events) == r
    ensures var s' := Run(cfg, s, events);
            job.h in s'.rows && s'.rows[job.h].bumpCount == s.rows[job.h].bumpCount + r + 1
  {
    hide Step, Run, Replacement, Redeliveries, Plain;
    var from, row := s.nextId, s.rows[job.h];
    var more := Redelivered(cfg, s, id, job, r);
    var s1 := Run(cfg, s, more);
    var read := AllRead(cfg, s1, job, from, r);
    var s2 := Run(cfg, s1, read);
    var self := AllRead(cfg, s2, job, id, 1);
    var s3 := Run(cfg, s2, self);
    var bump := AllBump(cfg, s3, job, row, from, r);
    var s4 := Run(cfg, s3, bump);
    var last := AllBump(cfg, s4, job, row, id, 1);
    events := more + read + self + bump + last;
    RunConcat(cfg, s, more + read + self + bump, last);
    RunParts(cfg, s, more, read, self, bump);
    RedeliveriesConcat(more + read + self + bump, last);
    RedeliveriesConcat(more + read + self, bump);
    RedeliveriesConcat(more + read, self);
    RedeliveriesConcat(more, read);
    PlainRedeliversNothing(read);
    PlainRedeliversNothing(self);
    PlainRedeliversNothing(bump);
    PlainRedeliversNothing(last);
  }

  /** A run with r redeliveries in which the row was bumped n times. */
  ghost predicate BumpedTo(cfg: Config, events: seq<Event>, h: OpHash, r: nat, n: nat) {
    Redeliveries(events) == r && h in Reached(cfg, events).rows && Reached(cfg, events).rows[h].bumpCount == n
  }

  /**
   * The bound is reached for every number of redeliveries: all workers of one job read the same bumpCount below
   * MAX, and each of their markStuck calls finds the row SUBMITTED. (With MAX = 0 no worker ever bumps.)
   */
  lemma RedeliveryOverrunsBudget(cfg: Config, h: OpHash, op: SponsoredOp, signature: Bytes, r: nat)
    requires BuildPackedUserOp(op, signature).Ok? && cfg.maxAttempts > 0
    ensures exists events, n: nat :: BumpedTo(cfg, events, h, r, n) && n == cfg.maxAttempts + r
  {
    hide BuildPackedUserOp, Core, Replacement, Reached, Run, Redeliveries, Racing, Broadcasts, Calls, Leads, Plain,
        Outbid;
    var start, first, opening := Takeovers(cfg, h, op, signature, 1, 0);
    var before, id, job := Cycles(cfg, start, first, opening, cfg.maxAttempts - 1);
    PlainIsAtMostOnce(before);
    PlainRedeliversNothing(before);
    ReachedIs(cfg, before);
    var s := Reached(cfg, before);
    RunKeepsCore(cfg, before);
    ReplacementOutbids(cfg, s, id, job);
    OldAgent(cfg, s, id);
    var more := TwinBumps(cfg, s, id, job, r);
    RunConcat(cfg, Init, before, more);
    ReachedIs(cfg, before + more);
    RedeliveriesConcat(before, more);
    assert BumpedTo(cfg, before + more, h, r, cfg.maxAttempts + r);
  }

  lemma OldAgent(cfg: Config, s: State, id: Id)
    requires Core(cfg, s) && id in s.procs
    ensures id < s.nextId
  {
  }

  /** The exact condition under which the bump budget is never overrun: no redelivery. */
  lemma BudgetHoldsIffNoRedelivery(cfg: Config, h: OpHash, op: SponsoredOp, signature: Bytes, r: nat)
    requires BuildPackedUserOp(op, signature).Ok? && cfg.maxAttempts > 0
    ensures (forall events, n: nat :: BumpedTo(cfg, events, h, r, n) ==> n <= cfg.maxAttempts) <==> r == 0
  {
    hide BuildPackedUserOp, BumpedTo;
    if r == 0 {
      forall events, n: nat | BumpedTo(cfg, events, h, r, n) ensures n <= cfg.maxAttempts {
        WithinBudget(cfg, events, h, r, n);
      }
    } else {
      RedeliveryOverrunsBudget(cfg, h, op, signature, r);
    }
  }

  lemma WithinBudget(cfg: Config, events: seq<Event>, h: OpHash, r: nat, n: nat)
    requires BumpedTo(cfg, events, h, r, n)
    ensures n <= cfg.maxAttempts + r
  {
    hide Reached, Redeliveries;
    BumpsWithinRedeliveries(cfg, events, h);
  }
}
