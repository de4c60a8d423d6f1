/**
 * The running backend: relayer.service.ts and confirmation-check.processor.ts as methods that update the
 * shared stores, one method per stretch of code between two awaits, each proved against the step it is.
 */
module RelayerService {
  import opened Wrappers
  import opened Numbers
  import opened Schema
  import opened Packing
  import opened UserOpStateMachine
  import opened RelayerProtocol
  import opened RelayerInvariant

  class RelayerBackend {
    const cfg: Config
    const stateMachine: UserOpStateMachineService
    var procs: map<Id, Proc>
    var nextId: Id
    var sent: map<Id, Sent>
    var mined: map<nat, Mined>
    var calls: map<Id, OpHash>
    ghost var audit: map<OpHash, Audit>

    ghost function Abstract(): State
      reads this, stateMachine
    {
      State(stateMachine.rows, procs, nextId, sent, mined, calls, audit)
    }

    constructor (cfg: Config)
      ensures this.cfg == cfg && Abstract() == Init && fresh(stateMachine)
    {
      this.cfg := cfg;
      stateMachine := new UserOpStateMachineService();
      procs, nextId, sent, mined, calls, audit := map[], 0, map[], map[], map[], map[];
    }

    method Finish(id: Id, outcome: Outcome)
      modifies this`procs
      ensures procs == old(procs)[id := Done(outcome)]
    {
      procs := procs[id := Done(outcome)];
    }

    /** `queue.add` */
    method Enqueue(id: Id, job: Job)
      modifies this`procs, this`nextId
      ensures Abstract() == RelayerProtocol.Enqueue(old(Abstract()), id, job)
    {
      procs := procs[id := Done(Completed)];
      procs := procs[nextId := Check(job, Queued)];
      nextId := nextId + 1;
    }

    /** `walletClient.writeContract`, accepted by the node. */
    method WriteContract(id: Id, h: OpHash, origin: Origin, tx: Tx)
      modifies this`sent
      ensures sent == old(sent)[id := Sent(h, origin, tx)]
    {
      sent := sent[id := Sent(h, origin, tx)];
    }

    ghost method Record(h: OpHash, a: Audit)
      requires h in stateMachine.rows
      modifies this`audit
      ensures audit == old(audit)[h := Moved(a, stateMachine.rows[h].status)]
    {
      audit := audit[h := Moved(a, stateMachine.rows[h].status)];
    }

    // ----- submit

    method SubmitRead(id: Id, h: OpHash, signature: Bytes)
      modifies this`procs
      ensures forall env :: Abstract() == StepSubmit(old(Abstract()), id, h, signature, Reading, env)
    {
      if h !in stateMachine.rows {
        Finish(id, NotFound);
        return;
      }
      var row := stateMachine.rows[h];
      if row.status != PENDING {
        Finish(id, NotPending(row.status));
        return;
      }
      var userOp := BuildPackedUserOp(row.op, signature);
      if userOp.Err? {
        Finish(id, Threw);
        return;
      }
      procs := procs[id := Submit(h, signature, Estimating(userOp.value, row.op.entryPoint))];
    }

    method SubmitEstimate(id: Id, h: OpHash, signature: Bytes, userOp: PackedUserOp, entryPoint: Address, env: Env)
      modifies this`procs
      ensures Abstract() == StepSubmit(old(Abstract()), id, h, signature, Estimating(userOp, entryPoint), env)
    {
      var relayerGasLimit := env.estimatedGas * 120 / 100;
      var tx := Tx(userOp, entryPoint, env.nonce, relayerGasLimit, env.maxFeePerGas, env.maxPriorityFeePerGas);
      procs := procs[id := Submit(h, signature, Broadcasting(tx))];
    }

    method SubmitBroadcast(id: Id, h: OpHash, signature: Bytes, tx: Tx)
      modifies this`procs, this`sent
      ensures forall env :: Abstract() == StepSubmit(old(Abstract()), id, h, signature, Broadcasting(tx), env)
    {
      WriteContract(id, h, FromSubmit, tx);
      procs := procs[id := Submit(h, signature, MarkingSubmitted(tx))];
    }

    method SubmitMark(id: Id, h: OpHash, signature: Bytes, tx: Tx)
      modifies this`procs, this`audit, stateMachine
      ensures forall env :: Abstract() == StepSubmit(old(Abstract()), id, h, signature, MarkingSubmitted(tx), env)
    {
      ghost var s := Abstract();
      var marked := stateMachine.MarkSubmitted(h, FirstSubmission(tx, signature));
      if marked.Err? {
        Finish(id, LostSubmitRace);
        return;
      }
      Record(h, SubmitAudit(s, id, h));
      procs := procs[id := Submit(h, signature, Enqueueing(tx))];
    }

    method AdvanceSubmit(id: Id, h: OpHash, signature: Bytes, pc: SubmitPc, env: Env)
      modifies this, stateMachine
      ensures Abstract() == StepSubmit(old(Abstract()), id, h, signature, pc, env)
    {
      match pc {
        case Reading => SubmitRead(id, h, signature);
        case Estimating(userOp, entryPoint) => SubmitEstimate(id, h, signature, userOp, entryPoint, env);
        case Broadcasting(tx) => SubmitBroadcast(id, h, signature, tx);
        case MarkingSubmitted(tx) => SubmitMark(id, h, signature, tx);
        case Enqueueing(tx) => Enqueue(id, Job(h, TxHash(tx)));
      }
    }

    // ----- process

    method FetchReceipt(id: Id, job: Job, env: Env)
      modifies this`procs
      ensures Abstract() == StepCheck(cfg, old(Abstract()), id, job, Fetching, env)
    {
      var receipt := None;
      if env.rpcAnswers {
        receipt := ReceiptOf(mined, job.txHash);
      }
      if receipt.Some? {
        if receipt.value.success {
          procs := procs[id := Check(job, MarkingConfirmed(receipt.value))];
        } else {
          procs := procs[id := Check(job, MarkingReverted)];
        }
        return;
      }
      procs := procs[id := Check(job, Loading)];
    }

    method Confirm(id: Id, job: Job, receipt: Receipt)
      modifies this`procs, this`audit, stateMachine
      ensures forall env :: Abstract() == StepCheck(cfg, old(Abstract()), id, job, MarkingConfirmed(receipt), env)
    {
      ghost var s := Abstract();
      var marked := stateMachine.MarkConfirmed(job.h, receipt);
      if marked.Err? {
        Finish(id, LostCheckUpdate);
        return;
      }
      Record(job.h, AuditOf(s, job.h));
      Finish(id, Completed);
    }

    method Fail(id: Id, job: Job, reason: FailureReason)
      modifies this`procs, this`audit, stateMachine
      ensures var s := old(Abstract());
              Abstract() == if !CanMove(s.rows, job.h, RESOLVABLE) then RelayerProtocol.Finish(s, id, LostCheckUpdate)
                            else RelayerProtocol.Finish(Write(s, job.h, FailedRow(s.rows[job.h], reason),
                                                              AuditOf(s, job.h)),
                                                        id, Completed)
    {
      ghost var s := Abstract();
      var marked := stateMachine.MarkFailed(job.h, reason);
      if marked.Err? {
        Finish(id, LostCheckUpdate);
        return;
      }
      Record(job.h, AuditOf(s, job.h));
      Finish(id, Completed);
    }

    // ----- handleStuck

    method LoadRow(id: Id, job: Job)
      modifies this`procs
      ensures forall env :: Abstract() == StepCheck(cfg, old(Abstract()), id, job, Loading, env)
    {
      if job.h !in stateMachine.rows {
        Finish(id, RowMissing);
        return;
      }
      var row := stateMachine.rows[job.h];
      if row.bumpCount >= cfg.maxAttempts {
        procs := procs[id := Check(job, MarkingExhausted)];
        return;
      }
      procs := procs[id := Check(job, MarkingStuck(row))];
    }

    /** Throws exactly where a column cannot be read; otherwise bumped fees around the row's own nonce, gas limit and
     * struct. */
    method PrepareReplacement(row: UserOperation) returns (tx: Result<Tx, Error>)
      ensures tx.Ok? <==> Rebuildable(row)
      ensures tx.Ok? ==> IsReplacement(cfg, row, tx.value)
    {
      hide ReadColumn, BuildPackedUserOp;
      if row.maxFeePerGas.None? || row.maxPriorityFeePerGas.None? || row.relayerNonce.None?
          || row.relayerGasLimit.None? {
        return Err(Syntax(SyntaxError));
      }
      var maxFeePerGas :- ReadColumn(row.maxFeePerGas.value);
      var bumpedMaxFeePerGas := maxFeePerGas * (100 + cfg.bumpPercent) / 100;
      var maxPriorityFeePerGas :- ReadColumn(row.maxPriorityFeePerGas.value);
      var bumpedMaxPriorityFeePerGas := maxPriorityFeePerGas * (100 + cfg.bumpPercent) / 100;
      var userOp :- BuildPackedUserOp(row.op, row.signature);
      var gas :- ReadColumn(row.relayerGasLimit.value);
      tx := Ok(Tx(userOp, row.op.entryPoint, row.relayerNonce.value, gas, bumpedMaxFeePerGas,
                  bumpedMaxPriorityFeePerGas));
    }

    method Stick(id: Id, job: Job, row: UserOperation)
      modifies this`procs, this`audit, stateMachine
      ensures forall env :: Abstract() == StepCheck(cfg, old(Abstract()), id, job, MarkingStuck(row), env)
    {
      ghost var s := Abstract();
      var marked := stateMachine.MarkStuck(job.h);
      if marked.Err? {
        Finish(id, LostCheckUpdate);
        return;
      }
      Record(job.h, StuckAudit(s, id, job.h));
      var tx := PrepareReplacement(row);
      ReplacementMeans(cfg, row);
      if tx.Err? {
        Finish(id, ReplacementThrew);
        return;
      }
      procs := procs[id := Check(job, Rebroadcasting(tx.value))];
    }

    method Rebroadcast(id: Id, job: Job, tx: Tx)
      modifies this`procs, this`sent
      ensures forall env :: Abstract() == StepCheck(cfg, old(Abstract()), id, job, Rebroadcasting(tx), env)
    {
      WriteContract(id, job.h, Replaces(job.txHash), tx);
      procs := procs[id := Check(job, Remarking(tx))];
    }

    method Resubmit(id: Id, job: Job, tx: Tx)
      modifies this`procs, this`audit, stateMachine
      ensures forall env :: Abstract() == StepCheck(cfg, old(Abstract()), id, job, Remarking(tx), env)
    {
      ghost var s := Abstract();
      var marked := stateMachine.MarkSubmitted(job.h, Resubmission(tx));
      if marked.Err? {
        Finish(id, LostResubmitRace);
        return;
      }
      Record(job.h, BumpAudit(s, id, job.h));
      procs := procs[id := Check(job, Reenqueueing(tx))];
    }

    method AdvanceCheck(id: Id, job: Job, pc: CheckPc, env: Env)
      modifies this, stateMachine
      ensures Abstract() == StepCheck(cfg, old(Abstract()), id, job, pc, env)
    {
      match pc {
        case Queued => procs := procs[id := Check(job, Fetching)];
        case Fetching => FetchReceipt(id, job, env);
        case MarkingConfirmed(receipt) => Confirm(id, job, receipt);
        case MarkingReverted => Fail(id, job, TransactionReverted);
        case Loading => LoadRow(id, job);
        case MarkingExhausted => Fail(id, job, ExceededMaxBumps(cfg.maxAttempts));
        case MarkingStuck(row) => Stick(id, job, row);
        case Rebroadcasting(tx) => Rebroadcast(id, job, tx);
        case Remarking(tx) => Resubmit(id, job, tx);
        case Reenqueueing(tx) => Enqueue(id, Job(job.h, TxHash(tx)));
      }
    }

    // ----- runs

    /** Row creation, new calls, crashes, redeliveries and blocks: what happens around the two services. */
    method Environment(e: Event)
      requires !e.Advance?
      modifies this, stateMachine
      ensures Abstract() == Step(cfg, old(Abstract()), e)
    {
      match e {
        case Create(h, op) =>
          if h !in stateMachine.rows {
            stateMachine.rows := stateMachine.rows[h := NewRow(op)];
            audit := audit[h := Audit([PENDING], {}, {}, {}, {})];
          }
        case Call(h, signature) =>
          procs := procs[nextId := Submit(h, signature, Reading)];
          calls := calls[nextId := h];
          nextId := nextId + 1;
        case Crash(id) =>
          if id in procs && !procs[id].Done? {
            Finish(id, Crashed);
          }
        case Redeliver(id) =>
          if id in procs && procs[id].Check? {
            procs := procs[nextId := Check(procs[id].job, Queued)];
            nextId := nextId + 1;
          }
        case Mine(id, receipt) =>
          if id in sent && sent[id].tx.nonce !in mined {
            mined := mined[sent[id].tx.nonce := Mined(sent[id].tx, receipt)];
          }
      }
    }

    method Execute(e: Event)
      modifies this, stateMachine
      ensures Abstract() == Step(cfg, old(Abstract()), e)
    {
      if !e.Advance? {
        Environment(e);
      } else if e.id in procs {
        match procs[e.id] {
          case Submit(h, signature, pc) => AdvanceSubmit(e.id, h, signature, pc, e.env);
          case Check(job, pc) => AdvanceCheck(e.id, job, pc, e.env);
          case Done(_) =>
        }
      }
    }

    /** Any schedule of the backend's methods is a run, and keeps the invariant. */
    method Play(events: seq<Event>)
      requires Core(cfg, Abstract()) && AtMostOnce(events)
      modifies this, stateMachine
      ensures Abstract() == Run(cfg, old(Abstract()), events)
      ensures Core(cfg, Abstract())
    {
      ghost var s := Abstract();
      for n := 0 to |events|
        invariant Abstract() == Run(cfg, s, events[..n]) && Core(cfg, Abstract())
      {
        StepKeepsCore(cfg, Abstract(), events[n]);
        Execute(events[n]);
        assert events[..n + 1][..n] == events[..n];
      }
      assert events[..|events|] == events;
    }
  }
}
