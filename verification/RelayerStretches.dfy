/** Stretches of undisturbed runs, put together for RelayerContest and RelayerWitnesses. */
module RelayerStretches {
  import opened Numbers
  import opened Schema
  import opened Packing
  import opened GasBump
  import opened UserOpStateMachine
  import opened RelayerProtocol
  import opened RelayerInvariant
  import opened RelayerAudit
  import opened RelayerLineage
  import opened RelayerShapes
  import opened RelayerTheorems

  const SILENT: Env := Env(0, 0, 0, 0, false)

  lemma {:induction false} RunConcat(cfg: Config, s: State, a: seq<Event>, b: seq<Event>)
    ensures Run(cfg, s, a + b) == Run(cfg, Run(cfg, s, a), b)
  {
    hide Step;
    if b == [] {
      assert a + b == a;
    } else {
      var front := b[..|b| - 1];
      RunConcat(cfg, s, a, front);
      assert (a + b)[..|a + b| - 1] == a + front;
    }
  }

  lemma DeliveredOnce(a: seq<Event>, b: seq<Event>)
    requires AtMostOnce(a) && AtMostOnce(b)
    ensures AtMostOnce(a + b)
  {
  }

  /** Nothing disturbs the run: no crash, no redelivery, and no block. */
  predicate Plain(events: seq<Event>) {
    forall i :: 0 <= i < |events| ==> events[i].Create? || events[i].Call? || events[i].Advance?
  }

  lemma PlainIsAtMostOnce(events: seq<Event>)
    requires Plain(events)
    ensures AtMostOnce(events)
  {
  }

  lemma PlainConcat(a: seq<Event>, b: seq<Event>)
    requires Plain(a) && Plain(b)
    ensures Plain(a + b)
  {
  }

  /** Without blocks nothing is mined. */
  lemma {:induction false} PlainMinesNothing(cfg: Config, s: State, events: seq<Event>)
    requires Plain(events)
    ensures Run(cfg, s, events).mined == s.mined
  {
    hide Step;
    if events == [] {
    } else {
      var front, e := events[..|events| - 1], events[|events| - 1];
      assert events[|events| - 1] == e;
      PlainMinesNothing(cfg, s, front);
      StepMinesNothing(cfg, Run(cfg, s, front), e);
    }
  }

  lemma StepMinesNothing(cfg: Config, s: State, e: Event)
    requires e.Create? || e.Call? || e.Advance?
    ensures Step(cfg, s, e).mined == s.mined
  {
    hide StepSubmit, StepCheck, Solo;
    if e.Advance? && e.id in s.procs {
      match s.procs[e.id]
      case Submit(h, signature, pc) => SubmitMinedSame(s, e.id, h, signature, pc, e.env);
      case Check(job, pc) => CheckMinedSame(cfg, s, e.id, job, pc, e.env);
      case Done(_) =>
    }
  }

  lemma SubmitMinedSame(s: State, id: Id, h: OpHash, signature: Bytes, pc: SubmitPc, env: Env)
    requires id in s.procs && s.procs[id] == Submit(h, signature, pc)
    ensures StepSubmit(s, id, h, signature, pc, env).mined == s.mined
  {
    if !pc.Enqueueing? {
      SubmitShape(s, id, h, signature, pc, env);
      hide StepSubmit;
    }
  }

  lemma CheckMinedSame(cfg: Config, s: State, id: Id, job: Job, pc: CheckPc, env: Env)
    requires id in s.procs && s.procs[id] == Check(job, pc)
    ensures StepCheck(cfg, s, id, job, pc, env).mined == s.mined
  {
    if !pc.Reenqueueing? {
      CheckShape(cfg, s, id, job, pc, env);
      hide StepCheck;
    }
  }

  lemma RunOne(cfg: Config, s: State, e: Event)
    ensures Run(cfg, s, [e]) == Step(cfg, s, e)
  {
    assert [e][..0] == [];
    assert Run(cfg, s, []) == s;
  }

  lemma RunThree(cfg: Config, s: State, e: Event, f: Event, g: Event)
    ensures Run(cfg, s, [e, f, g]) == Step(cfg, Step(cfg, Step(cfg, s, e), f), g)
  {
    hide Step;
    assert [e, f, g] == [e] + [f] + [g];
    RunConcat(cfg, s, [e] + [f], [g]);
    RunConcat(cfg, s, [e], [f]);
    RunOne(cfg, s, e);
    RunOne(cfg, Step(cfg, s, e), f);
    RunOne(cfg, Step(cfg, Step(cfg, s, e), f), g);
  }

  lemma RunParts(cfg: Config, s: State, a: seq<Event>, b: seq<Event>, c: seq<Event>, d: seq<Event>)
    ensures Run(cfg, s, a + b + c + d) == Run(cfg, Run(cfg, Run(cfg, Run(cfg, s, a), b), c), d)
  {
    hide Step, Run;
    RunConcat(cfg, s, a + b + c, d);
    RunConcat(cfg, s, a + b, c);
    RunConcat(cfg, s, a, b);
  }

  // ----- stretches of a run

  function Thrice(id: Id, env: Env): seq<Event> {
    [Advance(id, env), Advance(id, env), Advance(id, env)]
  }

  /** A submit call reads its PENDING row, estimates and broadcasts. */
  lemma SubmitStretch(cfg: Config, s: State, id: Id, h: OpHash, signature: Bytes, env: Env) returns (tx: Tx)
    requires id in s.procs && s.procs[id] == Submit(h, signature, Reading)
    requires h in s.rows && s.rows[h].status == PENDING && BuildPackedUserOp(s.rows[h].op, signature).Ok?
    ensures tx.nonce == env.nonce && tx.maxFeePerGas == env.maxFeePerGas
    ensures Run(cfg, s, Thrice(id, env))
         == s.(procs := s.procs[id := Submit(h, signature, MarkingSubmitted(tx))],
               sent := s.sent[id := Sent(h, FromSubmit, tx)])
  {
    hide BuildPackedUserOp;
    var e := Advance(id, env);
    var call := BuildPackedUserOp(s.rows[h].op, signature).value;
    tx := Tx(call, s.rows[h].op.entryPoint, env.nonce, env.estimatedGas * 120 / 100,
             env.maxFeePerGas, env.maxPriorityFeePerGas);
    var s1 := Put(s, id, Submit(h, signature, Estimating(call, s.rows[h].op.entryPoint)));
    var s2 := Put(s, id, Submit(h, signature, Broadcasting(tx)));
    assert Step(cfg, s, e) == s1;
    assert Step(cfg, s1, e) == s2 by { assert Put(s1, id, Submit(h, signature, Broadcasting(tx))) == s2; }
    RunThree(cfg, s, e, e, e);
  }

  /** A check finds no receipt and reads a row with bumps to spare. */
  lemma StickStretch(cfg: Config, s: State, id: Id, job: Job)
    requires id in s.procs && s.procs[id] == Check(job, Queued)
    requires job.h in s.rows && s.rows[job.h].bumpCount < cfg.maxAttempts
    ensures Run(cfg, s, Thrice(id, SILENT)) == Put(s, id, Check(job, MarkingStuck(s.rows[job.h])))
  {
    hide Replacement, Write, StuckRow, ConfirmedRow, FailedRow, ResubmittedRow, StepSubmit;
    var e := Advance(id, SILENT);
    var s1, s2 := Put(s, id, Check(job, Fetching)), Put(s, id, Check(job, Loading));
    assert Step(cfg, s, e) == s1;
    assert Step(cfg, s1, e) == s2 by { assert Put(s1, id, Check(job, Loading)) == s2; }
    assert Step(cfg, s2, e) == Put(s, id, Check(job, MarkingStuck(s.rows[job.h]))) by {
      assert Put(s2, id, Check(job, MarkingStuck(s.rows[job.h])))
          == Put(s, id, Check(job, MarkingStuck(s.rows[job.h])));
    }
    hide Step, Put;
    RunThree(cfg, s, e, e, e);
  }

  /** Marking STUCK from a snapshot. */
  lemma MarksStuck(cfg: Config, s: State, id: Id, job: Job, row: UserOperation)
    requires id in s.procs && s.procs[id] == Check(job, MarkingStuck(row)) && Replacement(cfg, row).Ok?
    requires job.h in s.rows && s.rows[job.h].status == SUBMITTED
    ensures var s' := Step(cfg, s, Advance(id, SILENT));
            && s'.procs == s.procs[id := Check(job, Rebroadcasting(Replacement(cfg, row).value))]
            && s'.rows == s.rows[job.h := StuckRow(s.rows[job.h])]
            && s'.sent == s.sent && s'.nextId == s.nextId && s'.calls == s.calls
  {
    hide Replacement, StuckAudit, Moved, StepSubmit;
  }

  /** A submit that broadcast marks its row, PENDING or STUCK. */
  lemma MarksSubmitted(cfg: Config, s: State, id: Id, h: OpHash, signature: Bytes, tx: Tx)
    requires id in s.procs && s.procs[id] == Submit(h, signature, MarkingSubmitted(tx))
        && CanMove(s.rows, h, SUBMITTABLE)
    ensures var s' := Step(cfg, s, Advance(id, SILENT));
            && s'.procs == s.procs[id := Submit(h, signature, Enqueueing(tx))]
            && s'.rows == s.rows[h := SubmittedRow(s.rows[h], tx, signature)]
            && s'.sent == s.sent && s'.nextId == s.nextId && s'.calls == s.calls
  {
    hide Decimal, SubmitAudit, Moved, StepCheck, SubmittedRow;
  }

  lemma Rebroadcasts(cfg: Config, s: State, id: Id, job: Job, tx: Tx)
    requires id in s.procs && s.procs[id] == Check(job, Rebroadcasting(tx))
    ensures Step(cfg, s, Advance(id, SILENT))
         == Put(Broadcast(s, id, Sent(job.h, Replaces(job.txHash), tx)), id, Check(job, Remarking(tx)))
  {
    hide Replacement, Write;
  }

  lemma Resubmits(cfg: Config, s: State, id: Id, job: Job, tx: Tx)
    requires id in s.procs && s.procs[id] == Check(job, Remarking(tx)) && CanMove(s.rows, job.h, SUBMITTABLE)
    ensures var s' := Step(cfg, s, Advance(id, SILENT));
            && s'.procs == s.procs[id := Check(job, Reenqueueing(tx))]
            && s'.rows == s.rows[job.h := ResubmittedRow(s.rows[job.h], tx)]
            && s'.sent == s.sent && s'.nextId == s.nextId && s'.calls == s.calls
  {
    hide Decimal, BumpAudit, Moved, StepSubmit, ResubmittedRow, Replacement;
  }

  lemma StuckStatus(row: UserOperation)
    ensures StuckRow(row).status == STUCK
  {
  }

  /** From its snapshot the check marks STUCK, rebroadcasts and resubmits, whoever else is about. */
  lemma BumpStretch(cfg: Config, s: State, id: Id, job: Job, row: UserOperation)
    requires id in s.procs && s.procs[id] == Check(job, MarkingStuck(row))
    requires job.h in s.rows && s.rows[job.h].status == SUBMITTED && Replacement(cfg, row).Ok?
    ensures var s' := Run(cfg, s, Thrice(id, SILENT));
            var tx := Replacement(cfg, row).value;
            && s'.procs == s.procs[id := Check(job, Reenqueueing(tx))]
            && s'.rows == s.rows[job.h := ResubmittedRow(StuckRow(s.rows[job.h]), tx)]
            && s'.sent == s.sent[id := Sent(job.h, Replaces(job.txHash), tx)]
            && s'.nextId == s.nextId && s'.calls == s.calls
  {
    hide Replacement, Decimal, Run, Step, StuckRow, ResubmittedRow;
    var e := Advance(id, SILENT);
    var tx := Replacement(cfg, row).value;
    var s1 := Step(cfg, s, e);
    MarksStuck(cfg, s, id, job, row);
    var s2 := Step(cfg, s1, e);
    Rebroadcasts(cfg, s1, id, job, tx);
    StuckStatus(s.rows[job.h]);
    Resubmits(cfg, s2, id, job, tx);
    RunThree(cfg, s, e, e, e);
  }

  /** `tx` is at the same nonce as `was`, its fee bumped. */
  predicate Outbid(cfg: Config, was: Tx, tx: Tx) {
    tx.nonce == was.nonce && tx.maxFeePerGas == Bump(cfg.bumpPercent, was.maxFeePerGas)
  }

  /** A token's job names the stored transaction, so the replacement outbids the job's. */
  lemma ReplacementOutbids(cfg: Config, s: State, id: Id, job: Job)
    requires Core(cfg, s) && id in s.procs && s.procs[id] == Check(job, Queued)
    ensures job.h in s.rows && s.rows[job.h].status == SUBMITTED && Replacement(cfg, s.rows[job.h]).Ok?
    ensures Outbid(cfg, job.txHash.tx, Replacement(cfg, s.rows[job.h]).value)
  {
    hide Core, Replacement, Evidence, StoresTx;
    CoreAt(cfg, s, id);
    CoreRowAt(cfg, s, job.h);
  }

  /** One whole confirmation cycle without a receipt: one more bump, one more broadcast, the next job queued. */
  lemma Cycle(cfg: Config, s: State, id: Id, job: Job) returns (events: seq<Event>, next: Job)
    requires Core(cfg, s) && Audited(s) && id in s.procs && s.procs[id] == Check(job, Queued)
    requires s.rows[job.h].bumpCount < cfg.maxAttempts
    ensures Plain(events) && next.h == job.h && Outbid(cfg, job.txHash.tx, next.txHash.tx)
    ensures var s' := Run(cfg, s, events);
            && s.nextId in s'.procs && s'.procs[s.nextId] == Check(next, Queued)
            && job.h in s'.rows && s'.rows[job.h].bumpCount == s.rows[job.h].bumpCount + 1
            && id !in s.sent && s'.sent == s.sent[id := Sent(job.h, Replaces(job.txHash), next.txHash.tx)]
            && s'.calls == s.calls
  {
    hide Core, Audited, Replacement, BuildPackedUserOp, Decimal, Step, Outbid;
    ReplacementOutbids(cfg, s, id, job);
    ProcAuditAt(s, id);
    var row := s.rows[job.h];
    var tx := Replacement(cfg, row).value;
    var s1 := Run(cfg, s, Thrice(id, SILENT));
    StickStretch(cfg, s, id, job);
    BumpStretch(cfg, s1, id, job, row);
    var s2 := Run(cfg, s1, Thrice(id, SILENT));
    next := Job(job.h, TxHash(tx));
    var last := [Advance(id, SILENT)];
    RunOne(cfg, s2, last[0]);
    ReenqueueIs(cfg, s2, id, job, tx);
    events := Thrice(id, SILENT) + Thrice(id, SILENT) + last;
    RunConcat(cfg, s, Thrice(id, SILENT) + Thrice(id, SILENT), last);
    RunConcat(cfg, s, Thrice(id, SILENT), Thrice(id, SILENT));
  }

  lemma ReenqueueIs(cfg: Config, s: State, id: Id, job: Job, tx: Tx)
    requires id in s.procs && s.procs[id] == Check(job, Reenqueueing(tx))
    ensures Step(cfg, s, Advance(id, SILENT)) == Enqueue(s, id, Job(job.h, TxHash(tx)))
  {
  }

  lemma Enqueues(cfg: Config, s: State, id: Id, h: OpHash, signature: Bytes, tx: Tx)
    requires id in s.procs && s.procs[id] == Submit(h, signature, Enqueueing(tx))
    ensures Step(cfg, s, Advance(id, SILENT)) == Enqueue(s, id, Job(h, TxHash(tx)))
  {
    hide StepCheck;
  }

  /** A submit call that broadcast marks its row and queues the first check. */
  lemma SubmitTail(cfg: Config, s: State, id: Id, h: OpHash, signature: Bytes, tx: Tx)
    requires id in s.procs && s.procs[id] == Submit(h, signature, MarkingSubmitted(tx))
    requires h in s.rows && s.rows[h].status == PENDING
    ensures var s' := Run(cfg, s, [Advance(id, SILENT)] + [Advance(id, SILENT)]);
            && s'.procs == s.procs[id := Done(Completed)][s.nextId := Check(Job(h, TxHash(tx)), Queued)]
            && h in s'.rows && s'.rows[h].bumpCount == s.rows[h].bumpCount && s'.rows[h].status == SUBMITTED
            && s'.sent == s.sent && s'.calls == s.calls && s'.nextId == s.nextId + 1
  {
    hide Decimal, StepSubmit, StepCheck, Run;
    var e := Advance(id, SILENT);
    var s1 := Step(cfg, s, e);
    MarksSubmitted(cfg, s, id, h, signature, tx);
    Enqueues(cfg, s1, id, h, signature, tx);
    hide Step;
    RunConcat(cfg, s, [e], [e]);
    RunOne(cfg, s, e);
    RunOne(cfg, s1, e);
  }

  // ----- which transactions

  /** A fee every bump raises, at any positive percentage. */
  const OPENING_FEE: nat := 100

  /** No broadcast at the nonce of `tx` pays more than `tx`, and `tx` pays enough for a bump to count. */
  ghost predicate Tops(s: State, h: OpHash, tx: Tx) {
    && tx.maxFeePerGas >= OPENING_FEE
    && forall i :: i in Broadcasts(s, h) && s.sent[i].tx.nonce == tx.nonce ==>
         s.sent[i].tx.maxFeePerGas <= tx.maxFeePerGas
  }

  /** No two broadcasts of the operation are one transaction. */
  ghost predicate AllDifferent(s: State, h: OpHash) {
    forall i, j :: i in Broadcasts(s, h) && j in Broadcasts(s, h) && i != j ==> s.sent[i].tx != s.sent[j].tx
  }

  /** `tx` is the bid to beat, and with a positive percentage all bids so far differ. */
  ghost predicate Leads(cfg: Config, s: State, h: OpHash, tx: Tx) {
    Tops(s, h, tx) && (cfg.bumpPercent > 0 ==> AllDifferent(s, h))
  }

  /** Outbidding the leader makes a new transaction, and a new leader. */
  lemma NewLead(cfg: Config, s: State, s': State, h: OpHash, id: Id, was: Tx)
    requires id !in s.sent && id in s'.sent && s'.sent == s.sent[id := s'.sent[id]] && s'.sent[id].h == h
    requires Leads(cfg, s, h, was) && Outbid(cfg, was, s'.sent[id].tx)
    ensures Leads(cfg, s', h, s'.sent[id].tx)
  {
    var tx := s'.sent[id].tx;
    BumpRaises(cfg.bumpPercent, was.maxFeePerGas);
    if cfg.bumpPercent > 0 {
      WorthAWei(was.maxFeePerGas, cfg.bumpPercent);
      assert tx.maxFeePerGas > was.maxFeePerGas;
    }
    forall i | i in Broadcasts(s', h) && i != id
      ensures i in Broadcasts(s, h) && s'.sent[i] == s.sent[i]
    {
    }
  }

  lemma WorthAWei(fee: nat, percent: nat)
    requires fee >= OPENING_FEE && percent > 0
    ensures fee * percent >= 100
  {
    assert fee * percent == fee + fee * (percent - 1);
  }

  /** n cycles on top of any run that left a fresh check in the queue. */
  lemma {:induction false} Cycles(cfg: Config, start: seq<Event>, first: Id, opening: Job, n: nat)
    returns (events: seq<Event>, id: Id, job: Job)
    requires Plain(start) && n <= cfg.maxAttempts
    requires var s := Reached(cfg, start);
             && first in s.procs && s.procs[first] == Check(opening, Queued)
             && opening.h in s.rows && s.rows[opening.h].bumpCount == 0 && Leads(cfg, s, opening.h, opening.txHash.tx)
    ensures Plain(events) && job.h == opening.h
    ensures var s, s' := Reached(cfg, start), Reached(cfg, events);
            && id in s'.procs && s'.procs[id] == Check(job, Queued)
            && job.h in s'.rows && s'.rows[job.h].bumpCount == n
            && |Broadcasts(s', job.h)| == |Broadcasts(s, job.h)| + n && Calls(s', job.h) == Calls(s, job.h)
            && Leads(cfg, s', job.h, job.txHash.tx)
  {
    hide Core, Audited, Reached, AtMostOnce, Plain, Leads, Outbid;
    if n == 0 {
      events, id, job := start, first, opening;
    } else {
      var before, old_id, old_job := Cycles(cfg, start, first, opening, n - 1);
      PlainIsAtMostOnce(before);
      Invariants(cfg, before);
      var s := Reached(cfg, before);
      var more, next := Cycle(cfg, s, old_id, old_job);
      RunConcat(cfg, Init, before, more);
      ReachedIs(cfg, before);
      ReachedIs(cfg, before + more);
      events, id, job := before + more, s.nextId, next;
      PlainConcat(before, more);
      OneMoreBroadcast(s, Reached(cfg, events), job.h, old_id);
      NewLead(cfg, s, Reached(cfg, events), job.h, old_id, old_job.txHash.tx);
    }
  }

  lemma OneMoreBroadcast(s: State, s': State, h: OpHash, id: Id)
    requires id !in s.sent && id in s'.sent && s'.sent == s.sent[id := s'.sent[id]] && s'.sent[id].h == h
    ensures |Broadcasts(s', h)| == |Broadcasts(s, h)| + 1
    ensures s'.calls == s.calls ==> Calls(s', h) == Calls(s, h)
  {
    SameCalls(s, s', h);
    hide Calls;
    forall i ensures i in Broadcasts(s', h) <==> i in Broadcasts(s, h) + {id} {
    }
    assert Broadcasts(s', h) == Broadcasts(s, h) + {id};
  }

  lemma SameCalls(s: State, s': State, h: OpHash)
    ensures s'.calls == s.calls ==> Calls(s', h) == Calls(s, h)
  {
  }

  lemma OneMoreCall(s: State, s': State, h: OpHash, id: Id)
    requires id !in s.calls && s'.calls == s.calls[id := h]
    ensures |Calls(s', h)| == |Calls(s, h)| + 1
  {
    assert Calls(s', h) == Calls(s, h) + {id};
  }

  lemma ReachedIs(cfg: Config, events: seq<Event>)
    ensures Reached(cfg, events) == Run(cfg, Init, events)
  {
  }

  lemma FreshProc(cfg: Config, s: State)
    requires Core(cfg, s)
    ensures s.nextId !in s.procs
  {
  }
}
