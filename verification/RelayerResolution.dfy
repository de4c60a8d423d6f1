/**
 * The other half of the token invariant: without crashes a token is never lost, so every run that comes to rest
 * has resolved what it broadcast; and one crash is enough to strand a row.
 */
module RelayerResolution {
  import opened Wrappers
  import opened Numbers
  import opened Schema
  import opened Packing
  import opened UserOpStateMachine
  import opened RelayerProtocol
  import opened RelayerInvariant
  import opened RelayerAudit
  import opened RelayerLineage
  import opened RelayerBaton
  import opened RelayerShapes
  import opened RelayerTheorems
  import opened RelayerProgress
  import opened RelayerStretches
  import opened RelayerContest

  /** How often an agent is killed between two steps. */
  function Crashes(events: seq<Event>): nat {
    if events == [] then 0
    else Crashes(events[..|events| - 1]) + Flag(events[|events| - 1].Crash?)
  }

  ghost predicate AtRest(s: State) {
    forall i :: i in s.procs ==> s.procs[i].Done?
  }

  /** A submit call that broadcast and is about to mark its row. */
  ghost predicate Marking(s: State, i: Id, h: OpHash) {
    i in s.procs && s.procs[i].Submit? && s.procs[i].h == h && s.procs[i].sub.MarkingSubmitted?
  }

  /** Somebody answers for the row: its token's holder, its baton's, or every submit that broadcast for it. */
  ghost predicate Attended(s: State, h: OpHash)
    requires h in s.rows
  {
    && (s.rows[h].status == SUBMITTED ==> exists i :: Holds(s, i, h))
    && (s.rows[h].status == STUCK ==> exists i :: Baton(s, i, h))
    && (s.rows[h].status == PENDING ==> forall a :: FromCall(s.sent, h, a) ==> Marking(s, a, h))
  }

  ghost predicate AllAttended(s: State) {
    forall h :: h in s.rows ==> Attended(s, h)
  }

  /** A step of agent `id` that leaves row `g` alone keeps it attended, unless `id` was needed and left. */
  lemma AttendedFrame(s: State, s': State, id: Id, g: OpHash)
    requires g in s.rows && Attended(s, g) && g in s'.rows && s'.rows[g] == s.rows[g]
    requires forall i :: i != id && i in s.procs ==> i in s'.procs && s'.procs[i] == s.procs[i]
    requires Holds(s, id, g) ==> exists j :: Holds(s', j, g)
    requires Baton(s, id, g) && s.rows[g].status == STUCK ==> Baton(s', id, g)
    requires Marking(s, id, g) && s.rows[g].status == PENDING ==> Marking(s', id, g)
    requires forall a :: FromCall(s'.sent, g, a) ==> FromCall(s.sent, g, a) || Marking(s', a, g)
    ensures Attended(s', g)
  {
    if s.rows[g].status == SUBMITTED {
      var i :| Holds(s, i, g);
      assert i != id ==> Holds(s', i, g);
    } else if s.rows[g].status == STUCK {
      var i :| Baton(s, i, g);
      assert Baton(s', i, g);
    } else if s.rows[g].status == PENDING {
      forall a | FromCall(s'.sent, g, a) ensures Marking(s', a, g) {
        assert FromCall(s.sent, g, a) ==> Marking(s, a, g);
      }
    }
  }

  /** The agent keeps whatever it answered for, and the table is as it was. */
  lemma PutAttends(s: State, s': State, id: Id)
    requires AllAttended(s) && id in s.procs && id in s'.procs
    requires s'.rows == s.rows && s'.procs == s.procs[id := s'.procs[id]]
    requires forall g :: Holds(s, id, g) ==> Holds(s', id, g)
    requires forall g :: g in s.rows && Baton(s, id, g) && s.rows[g].status == STUCK ==> Baton(s', id, g)
    requires forall g :: g in s.rows && Marking(s, id, g) && s.rows[g].status == PENDING ==> Marking(s', id, g)
    requires forall g, a :: FromCall(s'.sent, g, a) ==> FromCall(s.sent, g, a) || Marking(s', a, g)
    ensures AllAttended(s')
  {
    hide Attended, Marking, FromCall, Baton, Holds;
    forall g | g in s'.rows ensures Attended(s', g) {
      AttendedFrame(s, s', id, g);
    }
  }

  /** The agent rewrites the one row it answers for, and whoever answers for it afterwards is given. */
  lemma WriteAttends(s: State, id: Id, h: OpHash, row: UserOperation, a: Audit, p: Proc)
    requires AllAttended(s) && id in s.procs && h in s.rows
    requires forall g :: Holds(s, id, g) || Baton(s, id, g) || Marking(s, id, g) ==> g == h
    requires Attended(Put(Write(s, h, row, a), id, p), h)
    ensures AllAttended(Put(Write(s, h, row, a), id, p))
  {
    hide Attended, Marking, FromCall, Baton, Holds;
    var s' := Put(Write(s, h, row, a), id, p);
    forall g | g in s'.rows ensures Attended(s', g) {
      if g != h {
        AttendedFrame(s, s', id, g);
      }
    }
  }

  /** The token passes to the queued job. */
  lemma EnqueueAttends(s: State, id: Id, job: Job)
    requires AllAttended(s) && id in s.procs && Token(s.procs[id]) == Some(job) && s.nextId !in s.procs
    requires AboutToEnqueue(s.procs[id])
    ensures AllAttended(Enqueue(s, id, job))
  {
    hide Attended, FromCall;
    var s' := Enqueue(s, id, job);
    assert Holds(s', s.nextId, job.h);
    forall g | g in s'.rows ensures Attended(s', g) {
      AttendedFrame(s, s', id, g);
    }
  }

  // ----- submit

  lemma SubmitAttends(cfg: Config, s: State, id: Id, h: OpHash, signature: Bytes, pc: SubmitPc, env: Env)
    requires Core(cfg, s) && Audited(s) && AllAttended(s) && id in s.procs && s.procs[id] == Submit(h, signature, pc)
    ensures AllAttended(StepSubmit(s, id, h, signature, pc, env))
  {
    hide Core, Audited, AllAttended, StepSubmit;
    match pc
    case Reading => EstimateAttends(s, id, h, signature, pc, env);
    case Estimating(_, _) => EstimateAttends(s, id, h, signature, pc, env);
    case Broadcasting(tx) => BroadcastAttends(s, id, h, signature, tx, env);
    case MarkingSubmitted(tx) => MarkAttends(s, id, h, signature, tx, env);
    case Enqueueing(tx) => SubmitEnqueueAttends(cfg, s, id, h, signature, tx, env);
  }

  lemma EstimateAttends(s: State, id: Id, h: OpHash, signature: Bytes, pc: SubmitPc, env: Env)
    requires AllAttended(s) && id in s.procs && s.procs[id] == Submit(h, signature, pc)
        && (pc.Reading? || pc.Estimating?)
    ensures AllAttended(StepSubmit(s, id, h, signature, pc, env))
  {
    SubmitShape(s, id, h, signature, pc, env);
    hide AllAttended, StepSubmit;
    PutAttends(s, StepSubmit(s, id, h, signature, pc, env), id);
  }

  lemma BroadcastAttends(s: State, id: Id, h: OpHash, signature: Bytes, tx: Tx, env: Env)
    requires AllAttended(s) && id in s.procs && s.procs[id] == Submit(h, signature, Broadcasting(tx))
    ensures AllAttended(StepSubmit(s, id, h, signature, Broadcasting(tx), env))
  {
    hide AllAttended;
    var s' := Put(Broadcast(s, id, Sent(h, FromSubmit, tx)), id, Submit(h, signature, MarkingSubmitted(tx)));
    assert Marking(s', id, h);
    PutAttends(s, s', id);
  }

  lemma MarkAttends(s: State, id: Id, h: OpHash, signature: Bytes, tx: Tx, env: Env)
    requires AllAttended(s) && Audited(s) && id in s.procs && s.procs[id] == Submit(h, signature, MarkingSubmitted(tx))
    ensures AllAttended(StepSubmit(s, id, h, signature, MarkingSubmitted(tx), env))
  {
    hide AllAttended, Audited, SubmittedRow;
    if CanMove(s.rows, h, SUBMITTABLE) {
      WinnerAttends(s, id, h, signature, tx);
    } else {
      StopAttends(s, id, LostSubmitRace);
    }
  }

  lemma WinnerAttends(s: State, id: Id, h: OpHash, signature: Bytes, tx: Tx)
    requires AllAttended(s) && id in s.procs && s.procs[id] == Submit(h, signature, MarkingSubmitted(tx))
    requires h in s.rows
    ensures AllAttended(Put(Write(s, h, SubmittedRow(s.rows[h], tx, signature), SubmitAudit(s, id, h)), id,
                            Submit(h, signature, Enqueueing(tx))))
  {
    hide AllAttended, Decimal;
    var row, a, p := SubmittedRow(s.rows[h], tx, signature), SubmitAudit(s, id, h),
        Submit(h, signature, Enqueueing(tx));
    assert Holds(Put(Write(s, h, row, a), id, p), id, h);
    hide SubmittedRow, SubmitAudit;
    WriteAttends(s, id, h, row, a, p);
  }

  lemma SubmitEnqueueAttends(cfg: Config, s: State, id: Id, h: OpHash, signature: Bytes, tx: Tx, env: Env)
    requires Core(cfg, s) && AllAttended(s) && id in s.procs && s.procs[id] == Submit(h, signature, Enqueueing(tx))
    ensures AllAttended(StepSubmit(s, id, h, signature, Enqueueing(tx), env))
  {
    FreshProc(cfg, s);
    hide AllAttended, Core;
    EnqueueAttends(s, id, Job(h, TxHash(tx)));
  }

  // ----- process and handleStuck

  lemma CheckAttends(cfg: Config, s: State, id: Id, job: Job, pc: CheckPc, env: Env)
    requires Core(cfg, s) && AllAttended(s) && id in s.procs && s.procs[id] == Check(job, pc)
    ensures AllAttended(StepCheck(cfg, s, id, job, pc, env))
  {
    hide Core, AllAttended, StepCheck;
    match pc
    case MarkingConfirmed(_) => ResolveAttends(cfg, s, id, job, pc, env);
    case MarkingReverted => ResolveAttends(cfg, s, id, job, pc, env);
    case MarkingExhausted => ResolveAttends(cfg, s, id, job, pc, env);
    case MarkingStuck(row) => StickAttends(cfg, s, id, job, row, env);
    case Rebroadcasting(tx) => RebroadcastAttends(cfg, s, id, job, tx, env);
    case Remarking(tx) => RemarkAttends(cfg, s, id, job, tx, env);
    case Reenqueueing(tx) => CheckEnqueueAttends(cfg, s, id, job, tx, env);
    case _ => LookAttends(cfg, s, id, job, pc, env);
  }

  lemma LookAttends(cfg: Config, s: State, id: Id, job: Job, pc: CheckPc, env: Env)
    requires Core(cfg, s) && AllAttended(s) && id in s.procs && s.procs[id] == Check(job, pc)
    requires pc.Queued? || pc.Fetching? || pc.Loading?
    ensures AllAttended(StepCheck(cfg, s, id, job, pc, env))
  {
    hide Core, AllAttended, StepCheck;
    CheckFacts(cfg, s, id, job, pc);
    LookShape(cfg, s, id, job, pc, env);
    PutAttends(s, StepCheck(cfg, s, id, job, pc, env), id);
  }

  /** What a check answers for is its own operation. */
  lemma OnlyItsOwn(s: State, id: Id, job: Job, pc: CheckPc)
    requires id in s.procs && s.procs[id] == Check(job, pc)
    ensures forall g :: Holds(s, id, g) || Baton(s, id, g) || Marking(s, id, g) ==> g == job.h
  {
  }

  lemma ResolveAttends(cfg: Config, s: State, id: Id, job: Job, pc: CheckPc, env: Env)
    requires Core(cfg, s) && AllAttended(s) && id in s.procs && s.procs[id] == Check(job, pc)
    requires pc.MarkingConfirmed? || pc.MarkingReverted? || pc.MarkingExhausted?
    ensures AllAttended(StepCheck(cfg, s, id, job, pc, env))
  {
    CheckFacts(cfg, s, id, job, pc);
    hide Core, AllAttended, Attended, AuditOf, Write, Replacement;
    var row := if pc.MarkingConfirmed? then ConfirmedRow(s.rows[job.h], pc.receipt)
               else FailedRow(s.rows[job.h], if pc.MarkingReverted? then TransactionReverted
                                             else ExceededMaxBumps(cfg.maxAttempts));
    FinalAttends(s, id, job, pc, row, AuditOf(s, job.h));
  }

  /** A final row needs nobody. */
  lemma FinalAttends(s: State, id: Id, job: Job, pc: CheckPc, row: UserOperation, a: Audit)
    requires AllAttended(s) && id in s.procs && s.procs[id] == Check(job, pc) && job.h in s.rows && Terminal(row.status)
    ensures AllAttended(Put(Write(s, job.h, row, a), id, Done(Completed)))
  {
    hide AllAttended;
    OnlyItsOwn(s, id, job, pc);
    WriteAttends(s, id, job.h, row, a, Done(Completed));
  }

  lemma StickAttends(cfg: Config, s: State, id: Id, job: Job, row: UserOperation, env: Env)
    requires Core(cfg, s) && AllAttended(s) && id in s.procs && s.procs[id] == Check(job, MarkingStuck(row))
    ensures AllAttended(StepCheck(cfg, s, id, job, MarkingStuck(row), env))
  {
    hide Core, AllAttended, Replacement, StuckAudit;
    CheckFacts(cfg, s, id, job, MarkingStuck(row));
    StickKeepsCore(cfg, s, id, job, row);
    var p := Check(job, Rebroadcasting(Replacement(cfg, row).value));
    var stuck, a := StuckRow(s.rows[job.h]), StuckAudit(s, id, job.h);
    assert Baton(Put(Write(s, job.h, stuck, a), id, p), id, job.h);
    OnlyItsOwn(s, id, job, MarkingStuck(row));
    WriteAttends(s, id, job.h, stuck, a, p);
  }

  lemma RebroadcastAttends(cfg: Config, s: State, id: Id, job: Job, tx: Tx, env: Env)
    requires AllAttended(s) && id in s.procs && s.procs[id] == Check(job, Rebroadcasting(tx)) && Core(cfg, s)
    ensures AllAttended(StepCheck(cfg, s, id, job, Rebroadcasting(tx), env))
  {
    hide AllAttended, Core, Replacement;
    var s' := Put(Broadcast(s, id, Sent(job.h, Replaces(job.txHash), tx)), id, Check(job, Remarking(tx)));
    OnlyItsOwn(s, id, job, Rebroadcasting(tx));
    assert Baton(s', id, job.h);
    PutAttends(s, s', id);
  }

  /** An agent nobody needs may stop. */
  lemma StopAttends(s: State, id: Id, outcome: Outcome)
    requires AllAttended(s) && id in s.procs
    requires forall g :: !Holds(s, id, g)
    requires forall g :: g in s.rows && Baton(s, id, g) ==> s.rows[g].status != STUCK
    requires forall g :: g in s.rows && Marking(s, id, g) ==> s.rows[g].status != PENDING
    ensures AllAttended(Finish(s, id, outcome))
  {
    hide AllAttended, Holds, Baton, Marking;
    PutAttends(s, Finish(s, id, outcome), id);
  }

  lemma RemarkAttends(cfg: Config, s: State, id: Id, job: Job, tx: Tx, env: Env)
    requires Core(cfg, s) && AllAttended(s) && id in s.procs && s.procs[id] == Check(job, Remarking(tx))
    ensures AllAttended(StepCheck(cfg, s, id, job, Remarking(tx), env))
  {
    hide Core, AllAttended, ResubmittedRow, Write;
    CheckFacts(cfg, s, id, job, Remarking(tx));
    if CanMove(s.rows, job.h, SUBMITTABLE) {
      BumperAttends(s, id, job, tx);
    } else {
      StopAttends(s, id, LostResubmitRace);
    }
  }

  lemma BumperAttends(s: State, id: Id, job: Job, tx: Tx)
    requires AllAttended(s) && id in s.procs && s.procs[id] == Check(job, Remarking(tx)) && job.h in s.rows
    ensures AllAttended(Put(Write(s, job.h, ResubmittedRow(s.rows[job.h], tx), BumpAudit(s, id, job.h)), id,
                            Check(job, Reenqueueing(tx))))
  {
    hide AllAttended, Decimal;
    var row, a, p := ResubmittedRow(s.rows[job.h], tx), BumpAudit(s, id, job.h), Check(job, Reenqueueing(tx));
    assert Holds(Put(Write(s, job.h, row, a), id, p), id, job.h);
    hide ResubmittedRow, BumpAudit;
    OnlyItsOwn(s, id, job, Remarking(tx));
    WriteAttends(s, id, job.h, row, a, p);
  }

  lemma CheckEnqueueAttends(cfg: Config, s: State, id: Id, job: Job, tx: Tx, env: Env)
    requires Core(cfg, s) && AllAttended(s) && id in s.procs && s.procs[id] == Check(job, Reenqueueing(tx))
    ensures AllAttended(StepCheck(cfg, s, id, job, Reenqueueing(tx), env))
  {
    FreshProc(cfg, s);
    hide AllAttended, Core, Replacement;
    EnqueueAttends(s, id, Job(job.h, TxHash(tx)));
  }

  // ----- every event but a crash

  lemma CreateAttends(cfg: Config, s: State, h: OpHash, op: SponsoredOp)
    requires Audited(s) && AllAttended(s) && h !in s.rows
    ensures AllAttended(Step(cfg, s, Create(h, op)))
  {
    NotSentYet(s, h);
    hide Audited, StepSubmit, StepCheck;
    NewRowAttends(s, Step(cfg, s, Create(h, op)), h, op);
  }

  lemma NotSentYet(s: State, h: OpHash)
    requires Audited(s) && h !in s.rows
    ensures forall a :: !FromCall(s.sent, h, a)
  {
    assert forall a :: a in s.sent ==> SentAudit(s, a);
  }

  lemma NewRowAttends(s: State, s': State, h: OpHash, op: SponsoredOp)
    requires AllAttended(s) && h !in s.rows && s'.rows == s.rows[h := NewRow(op)]
    requires s'.procs == s.procs && s'.sent == s.sent && forall a :: !FromCall(s.sent, h, a)
    ensures AllAttended(s')
  {
    hide FromCall, Holds, Baton, Marking;
    forall g | g in s'.rows ensures Attended(s', g) {
      if g != h {
        assert Attended(s, g);
        SameAgentsAttend(s, s', g);
      }
    }
  }

  lemma SameAgentsAttend(s: State, s': State, g: OpHash)
    requires g in s.rows && Attended(s, g) && g in s'.rows && s'.rows[g] == s.rows[g] && s'.sent == s.sent
    requires forall i :: i in s.procs ==> i in s'.procs && s'.procs[i] == s.procs[i]
    ensures Attended(s', g)
  {
    if s.rows[g].status == SUBMITTED {
      var i :| Holds(s, i, g);
      assert Holds(s', i, g);
    } else if s.rows[g].status == STUCK {
      var i :| Baton(s, i, g);
      assert Baton(s', i, g);
    }
  }

  lemma SpawnAttends(s: State, s': State)
    requires AllAttended(s) && s'.rows == s.rows && s'.sent == s.sent
    requires forall i :: i in s.procs ==> i in s'.procs && s'.procs[i] == s.procs[i]
    ensures AllAttended(s')
  {
    hide Attended;
    forall g | g in s'.rows ensures Attended(s', g) {
      SameAgentsAttend(s, s', g);
    }
  }

  lemma CallAttends(cfg: Config, s: State, h: OpHash, signature: Bytes)
    requires AllAttended(s) && s.nextId !in s.procs
    ensures AllAttended(Step(cfg, s, Call(h, signature)))
  {
    hide AllAttended, StepSubmit, StepCheck;
    SpawnAttends(s, Step(cfg, s, Call(h, signature)));
  }

  lemma MineAttends(cfg: Config, s: State, id: Id, receipt: Receipt)
    requires AllAttended(s)
    ensures AllAttended(Step(cfg, s, Mine(id, receipt)))
  {
    hide AllAttended, StepSubmit, StepCheck;
    SpawnAttends(s, Step(cfg, s, Mine(id, receipt)));
  }

  lemma StepKeepsAttended(cfg: Config, s: State, e: Event)
    requires Core(cfg, s) && Audited(s) && AllAttended(s) && !e.Redeliver? && !e.Crash?
    ensures AllAttended(Step(cfg, s, e))
  {
    FreshProc(cfg, s);
    hide Core, Audited, AllAttended, StepSubmit, StepCheck;
    match e
    case Create(h, op) => if h !in s.rows { CreateAttends(cfg, s, h, op); }
    case Call(h, signature) => CallAttends(cfg, s, h, signature);
    case Advance(id, env) =>
      if id in s.procs {
        match s.procs[id]
        case Submit(h, signature, pc) => SubmitAttends(cfg, s, id, h, signature, pc, env);
        case Check(job, pc) => CheckAttends(cfg, s, id, job, pc, env);
        case Done(_) =>
      }
    case Mine(id, receipt) => MineAttends(cfg, s, id, receipt);
  }

  /**
   * In every crash-free run a SUBMITTED row's token is held, a STUCK row's baton too, and a PENDING row's
   * broadcasters are all about to mark it.
   */
  lemma {:induction false} TokenIsNeverLost(cfg: Config, events: seq<Event>)
    requires AtMostOnce(events) && Crashes(events) == 0
    ensures AllAttended(Reached(cfg, events))
  {
    if events == [] {
    } else {
      var front := events[..|events| - 1];
      TokenIsNeverLost(cfg, front);
      Invariants(cfg, front);
      hide Core, Audited, Lineage, Batons, AllAttended, Step;
      StepKeepsAttended(cfg, Reached(cfg, front), events[|events| - 1]);
    }
  }

  // ----- resolution

  /** The row reached a final status if any submit of it broadcast, and was left alone if none did. */
  ghost predicate Resolved(s: State, h: OpHash)
    requires h in s.rows
  {
    && (s.rows[h].status == PENDING || Terminal(s.rows[h].status))
    && (Terminal(s.rows[h].status) <==> exists a :: FromCall(s.sent, h, a))
  }

  /** Every crash-free run that came to rest has resolved every row. */
  lemma CrashFreeRunsResolve(cfg: Config, events: seq<Event>, h: OpHash)
    requires AtMostOnce(events) && Crashes(events) == 0
    requires AtRest(Reached(cfg, events)) && h in Reached(cfg, events).rows
    ensures Resolved(Reached(cfg, events), h)
  {
    TokenIsNeverLost(cfg, events);
    Invariants(cfg, events);
    hide Core, Audited, Lineage, Batons, Reached, Crashes, AllAttended, AtRest, Resolved;
    AttendedAtRest(cfg, Reached(cfg, events), h);
  }

  lemma AttendedAtRest(cfg: Config, s: State, h: OpHash)
    requires Core(cfg, s) && Audited(s) && AllAttended(s) && AtRest(s) && h in s.rows
    ensures Resolved(s, h)
  {
    hide Core, Audited;
    assert Attended(s, h);
    assert forall i :: !Holds(s, i, h) && !Baton(s, i, h) && !Marking(s, i, h);
    if s.rows[h].status != PENDING {
      LedgerAt(cfg, s, h);
      BroadcastsSplit(s, h);
      assert |s.audit[h].firstBy| == 1;
      var a :| a in s.audit[h].firstBy;
      assert a in SubmitBroadcasts(s, h);
    }
  }

  /** Whatever happened so far, letting the agents run brings the run to rest. */
  lemma {:induction false} ComesToRest(cfg: Config, events: seq<Event>) returns (more: seq<Event>)
    requires AtMostOnce(events)
    ensures AtMostOnce(events + more) && Crashes(events + more) == Crashes(events)
    ensures AtRest(Reached(cfg, events + more))
    decreases STEPS * ((cfg.maxAttempts + 2) * |Reached(cfg, events).calls|) - EffectiveSteps(cfg, events)
  {
    hide AtMostOnce, Reached, Crashes, EffectiveSteps;
    if AtRest(Reached(cfg, events)) {
      more := [];
      assert events + more == events;
    } else {
      var id: Id :| id in Reached(cfg, events).procs && !Reached(cfg, events).procs[id].Done?;
      var e := Advance(id, SILENT);
      OneMoreStep(cfg, events, id);
      EveryRunIsFinite(cfg, events + [e]);
      var rest := ComesToRest(cfg, events + [e]);
      more := [e] + rest;
      assert events + more == events + [e] + rest;
    }
  }

  lemma OneMoreStep(cfg: Config, events: seq<Event>, id: Id)
    requires AtMostOnce(events) && id in Reached(cfg, events).procs && !Reached(cfg, events).procs[id].Done?
    ensures var next := events + [Advance(id, SILENT)];
            && AtMostOnce(next) && Crashes(next) == Crashes(events)
            && Reached(cfg, next).calls == Reached(cfg, events).calls
            && EffectiveSteps(cfg, next) == EffectiveSteps(cfg, events) + 1
  {
    var s, e := Reached(cfg, events), Advance(id, SILENT);
    var next := events + [e];
    assert next[..|next| - 1] == events && next[|next| - 1] == e;
    RunKeepsCore(cfg, events);
    assert id < s.nextId;
    AgentAdvances(cfg, s, id, SILENT);
    AdvanceKeepsCalls(cfg, s, id, SILENT);
    hide Step, Core;
    assert Step(cfg, s, e) != s;
  }

  lemma AdvanceKeepsCalls(cfg: Config, s: State, id: Id, env: Env)
    requires id in s.procs
    ensures Step(cfg, s, Advance(id, env)).calls == s.calls
  {
    hide StepSubmit, StepCheck;
    match s.procs[id]
    case Submit(h, signature, pc) => SubmitKeepsCalls(s, id, h, signature, pc, env);
    case Check(job, pc) => CheckKeepsCalls(cfg, s, id, job, pc, env);
    case Done(_) =>
  }

  lemma SubmitKeepsCalls(s: State, id: Id, h: OpHash, signature: Bytes, pc: SubmitPc, env: Env)
    requires id in s.procs && s.procs[id] == Submit(h, signature, pc)
    ensures StepSubmit(s, id, h, signature, pc, env).calls == s.calls
  {
    if !pc.Enqueueing? {
      SubmitShape(s, id, h, signature, pc, env);
      hide StepSubmit;
    }
  }

  lemma CheckKeepsCalls(cfg: Config, s: State, id: Id, job: Job, pc: CheckPc, env: Env)
    requires id in s.procs && s.procs[id] == Check(job, pc)
    ensures StepCheck(cfg, s, id, job, pc, env).calls == s.calls
  {
    if !pc.Reenqueueing? {
      CheckShape(cfg, s, id, job, pc, env);
      hide StepCheck;
    }
  }

  // ----- one crash strands a row

  /** A run with k crashes that came to rest with the row neither untouched nor final. */
  ghost predicate Stranded(cfg: Config, events: seq<Event>, h: OpHash, k: nat) {
    && AtMostOnce(events) && Crashes(events) == k && AtRest(Reached(cfg, events))
    && h in Reached(cfg, events).rows && !Resolved(Reached(cfg, events), h)
  }

  /** The exact condition under which every run resolves the operation: no crash. */
  lemma AlwaysResolvedIffNoCrash(cfg: Config, h: OpHash, op: SponsoredOp, signature: Bytes, k: nat)
    requires BuildPackedUserOp(op, signature).Ok?
    ensures (forall events :: !Stranded(cfg, events, h, k)) <==> k == 0
  {
    hide BuildPackedUserOp, Stranded;
    if k == 0 {
      forall events ensures !Stranded(cfg, events, h, k) {
        NeverStranded(cfg, events, h);
      }
    } else {
      CrashStrands(cfg, h, op, signature, k);
    }
  }

  lemma NeverStranded(cfg: Config, events: seq<Event>, h: OpHash)
    ensures !Stranded(cfg, events, h, 0)
  {
    hide Reached, Resolved, AtMostOnce, Crashes, AtRest;
    if Stranded(cfg, events, h, 0) {
      CrashFreeRunsResolve(cfg, events, h);
    }
  }

  /** A lone submit call, run up to its mark. */
  lemma MarkedOnly(cfg: Config, h: OpHash, op: SponsoredOp, signature: Bytes) returns (events: seq<Event>)
    requires BuildPackedUserOp(op, signature).Ok?
    ensures AtMostOnce(events) && Crashes(events) == 0
    ensures var s := Reached(cfg, events);
            && 0 in s.procs && (forall i :: i in s.procs ==> i == 0) && h in s.rows && s.rows[h].status == SUBMITTED
  {
    hide BuildPackedUserOp, Reached, Racing, Step, AtMostOnce, Crashes, Plain, Core, Audited, Lineage, Batons;
    var before := Racers(cfg, h, op, signature, 1);
    var s := Reached(cfg, before);
    RacerAt(s, h, 0, 1);
    PlainIsAtMostOnce(before);
    Invariants(cfg, before);
    OnlyAgent(cfg, s);
    MarksSubmitted(cfg, s, 0, h, s.procs[0].signature, s.procs[0].sub.tx);
    events := before + [Advance(0, SILENT)];
    RunConcat(cfg, Init, before, [Advance(0, SILENT)]);
    RunOne(cfg, s, Advance(0, SILENT));
    ReachedIs(cfg, before);
    ReachedIs(cfg, events);
    PlainHasNoCrash(before);
    OneAdvance(before, 0);
  }

  /** A submit call killed between its mark and its `queue.add` leaves a SUBMITTED row that nobody will look at. */
  lemma CrashStrands(cfg: Config, h: OpHash, op: SponsoredOp, signature: Bytes, k: nat)
    requires BuildPackedUserOp(op, signature).Ok? && k > 0
    ensures exists events :: Stranded(cfg, events, h, k)
  {
    hide BuildPackedUserOp, Reached, AtMostOnce, Crashes, AtRest;
    var marked := MarkedOnly(cfg, h, op, signature);
    var events := KillAgain(cfg, marked, k);
    assert Stranded(cfg, events, h, k);
  }

  lemma OnlyAgent(cfg: Config, s: State)
    requires Core(cfg, s) && s.nextId == 1
    ensures forall i :: i in s.procs ==> i == 0
  {
  }

  lemma {:induction false} PlainHasNoCrash(events: seq<Event>)
    requires Plain(events)
    ensures Crashes(events) == 0
  {
    if events == [] {
    } else {
      PlainHasNoCrash(events[..|events| - 1]);
      assert !events[|events| - 1].Crash?;
    }
  }

  lemma OneAdvance(events: seq<Event>, id: Id)
    requires AtMostOnce(events)
    ensures var next := events + [Advance(id, SILENT)]; AtMostOnce(next) && Crashes(next) == Crashes(events)
  {
    var next := events + [Advance(id, SILENT)];
    assert next[..|next| - 1] == events;
  }

  lemma KillOnce(cfg: Config, s: State)
    requires 0 in s.procs && forall i :: i in s.procs ==> i == 0
    ensures var s' := Step(cfg, s, Crash(0));
            AtRest(s') && s'.rows == s.rows && 0 in s'.procs && forall i :: i in s'.procs ==> i == 0
  {
    hide StepSubmit, StepCheck;
  }

  /** Killing the only agent, and killing it again: the table stays. */
  lemma {:induction false} KillAgain(cfg: Config, events: seq<Event>, k: nat) returns (killed: seq<Event>)
    requires AtMostOnce(events) && k > 0
    requires var s := Reached(cfg, events); 0 in s.procs && forall i :: i in s.procs ==> i == 0
    ensures AtMostOnce(killed) && Crashes(killed) == Crashes(events) + k
    ensures var s, s' := Reached(cfg, events), Reached(cfg, killed);
            AtRest(s') && s'.rows == s.rows && 0 in s'.procs && forall i :: i in s'.procs ==> i == 0
  {
    hide Step;
    var before := events;
    if k > 1 {
      before := KillAgain(cfg, events, k - 1);
    }
    killed := before + [Crash(0)];
    assert killed[..|killed| - 1] == before && killed[|killed| - 1] == Crash(0);
    KillOnce(cfg, Reached(cfg, before));
  }
}
