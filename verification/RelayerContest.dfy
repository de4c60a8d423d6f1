/** Any number of racing submit calls, and as many different broadcasts of one operation as the bound allows. */
module RelayerContest {
  import opened Numbers
  import opened Schema
  import opened Packing
  import opened UserOpStateMachine
  import opened RelayerProtocol
  import opened RelayerInvariant
  import opened RelayerAudit
  import opened RelayerTheorems
  import opened RelayerStretches

  /** Submit call `i` read the PENDING row and broadcast at nonce `i`, and is about to mark the row. */
  ghost predicate Racer(s: State, h: OpHash, i: Id) {
    && i in s.procs && s.procs[i].Submit? && s.procs[i].h == h && s.procs[i].sub.MarkingSubmitted?
    && s.procs[i].sub.tx.nonce == i && Tops(s, h, s.procs[i].sub.tx)
  }

  ghost predicate Racing(s: State, h: OpHash, from: Id, n: nat) {
    forall i :: from <= i < n ==> Racer(s, h, i)
  }

  /** Agents 0 to n are racing submit calls, none of which has marked the row. */
  ghost predicate RacersReady(s: State, h: OpHash, op: SponsoredOp, n: nat) {
    && s.nextId == n && h in s.rows && s.rows[h] == NewRow(op) && Racing(s, h, 0, n)
    && |Broadcasts(s, h)| == |Calls(s, h)| == n
    && (forall i :: i in s.sent ==> i < n && s.sent[i].tx.nonce == i && s.sent[i].tx.maxFeePerGas == OPENING_FEE)
    && (forall i :: i in s.calls ==> i < n)
  }

  /** What the node answers racer `i`: a nonce of its own. */
  function Quote(i: Id): Env {
    Env(OPENING_FEE, 0, i, 0, false)
  }

  lemma {:induction false} Racers(cfg: Config, h: OpHash, op: SponsoredOp, signature: Bytes, n: nat)
    returns (events: seq<Event>)
    requires BuildPackedUserOp(op, signature).Ok?
    ensures Plain(events) && RacersReady(Reached(cfg, events), h, op, n)
  {
    hide BuildPackedUserOp, Step, Plain;
    if n == 0 {
      events := [Create(h, op)];
      RunOne(cfg, Init, events[0]);
      CreatedRow(cfg, h, op);
    } else {
      var before := Racers(cfg, h, op, signature, n - 1);
      var s := Reached(cfg, before);
      hide Run;
      var more := [Call(h, signature)] + Thrice(n - 1, Quote(n - 1));
      events := before + more;
      RunConcat(cfg, Init, before, more);
      var tx := OneRacer(cfg, s, h, signature);
      hide RacersReady;
      RacerJoins(s, h, op, n - 1, signature, tx);
      PlainConcat(before, more);
    }
  }

  lemma RacerJoins(s: State, h: OpHash, op: SponsoredOp, n: nat, signature: Bytes, tx: Tx)
    requires RacersReady(s, h, op, n) && tx.nonce == n && tx.maxFeePerGas == OPENING_FEE
    ensures RacersReady(s.(procs := s.procs[n := Submit(h, signature, MarkingSubmitted(tx))],
                           sent := s.sent[n := Sent(h, FromSubmit, tx)],
                           calls := s.calls[n := h], nextId := n + 1), h, op, n + 1)
  {
    var s' := s.(procs := s.procs[n := Submit(h, signature, MarkingSubmitted(tx))],
                 sent := s.sent[n := Sent(h, FromSubmit, tx)],
                 calls := s.calls[n := h], nextId := n + 1);
    OneMoreBroadcast(s, s', h, n);
    OneMoreCall(s, s', h, n);
    hide Calls;
    forall i | 0 <= i < n + 1 ensures Racer(s', h, i) {
      assert i < n ==> Racer(s, h, i);
    }
  }

  lemma CreatedRow(cfg: Config, h: OpHash, op: SponsoredOp)
    ensures RacersReady(Step(cfg, Init, Create(h, op)), h, op, 0) && Plain([Create(h, op)])
  {
  }

  lemma OneRacer(cfg: Config, s: State, h: OpHash, signature: Bytes) returns (tx: Tx)
    requires h in s.rows && s.rows[h].status == PENDING && BuildPackedUserOp(s.rows[h].op, signature).Ok?
    ensures tx.nonce == s.nextId && tx.maxFeePerGas == OPENING_FEE
    ensures Plain([Call(h, signature)] + Thrice(s.nextId, Quote(s.nextId)))
    ensures Run(cfg, s, [Call(h, signature)] + Thrice(s.nextId, Quote(s.nextId)))
         == s.(procs := s.procs[s.nextId := Submit(h, signature, MarkingSubmitted(tx))],
               sent := s.sent[s.nextId := Sent(h, FromSubmit, tx)],
               calls := s.calls[s.nextId := h], nextId := s.nextId + 1)
  {
    hide BuildPackedUserOp, StepSubmit, StepCheck, Run;
    var id := s.nextId;
    var s1 := Step(cfg, s, Call(h, signature));
    assert s1 == s.(procs := s.procs[id := Submit(h, signature, Reading)], nextId := id + 1, calls := s.calls[id := h]);
    tx := SubmitStretch(cfg, s1, id, h, signature, Quote(id));
    assert s1.procs[id := Submit(h, signature, MarkingSubmitted(tx))]
        == s.procs[id := Submit(h, signature, MarkingSubmitted(tx))];
    RunOne(cfg, s, Call(h, signature));
    RunConcat(cfg, s, [Call(h, signature)], Thrice(id, Quote(id)));
  }

  /** The check marks STUCK, a waiting submit takes the row over, and the check broadcasts for nothing. */
  lemma TakeoverStretch(cfg: Config, s: State, id: Id, job: Job, row: UserOperation, j: Id)
    requires id in s.procs && s.procs[id] == Check(job, MarkingStuck(row)) && Replacement(cfg, row).Ok?
    requires j in s.procs && s.procs[j].Submit? && s.procs[j].h == job.h && s.procs[j].sub.MarkingSubmitted?
    requires job.h in s.rows && s.rows[job.h].status == SUBMITTED
    ensures var s' := Run(cfg, s, [Advance(id, SILENT), Advance(j, SILENT), Advance(id, SILENT)]);
            var tx, ty := Replacement(cfg, row).value, s.procs[j].sub.tx;
            && s'.procs
               == s.procs[id := Check(job, Remarking(tx))][j := Submit(job.h, s.procs[j].signature, Enqueueing(ty))]
            && job.h in s'.rows && s'.rows[job.h].status == SUBMITTED
            && s'.rows[job.h].bumpCount == s.rows[job.h].bumpCount
            && s'.sent == s.sent[id := Sent(job.h, Replaces(job.txHash), tx)]
            && s'.nextId == s.nextId && s'.calls == s.calls
  {
    hide Replacement, Decimal, Run, Step;
    var e, f, h := Advance(id, SILENT), Advance(j, SILENT), job.h;
    var tx, ty := Replacement(cfg, row).value, s.procs[j].sub.tx;
    var s1 := Step(cfg, s, e);
    MarksStuck(cfg, s, id, job, row);
    var s2 := Step(cfg, s1, f);
    MarksSubmitted(cfg, s1, j, h, s.procs[j].signature, ty);
    Rebroadcasts(cfg, s2, id, job, tx);
    RunThree(cfg, s, e, f, e);
  }

  /** The overtaken check stops, and the submit that overtook it queues its own. */
  lemma OvertakenStops(cfg: Config, s: State, id: Id, job: Job, j: Id)
    requires id in s.procs && s.procs[id].Check? && s.procs[id].job == job && s.procs[id].chk.Remarking?
    requires j in s.procs && j != id && s.procs[j].Submit? && s.procs[j].sub.Enqueueing?
    requires job.h in s.rows && s.rows[job.h].status == SUBMITTED
    ensures Run(cfg, s, [Advance(id, SILENT)] + [Advance(j, SILENT)])
         == Enqueue(Finish(s, id, LostResubmitRace), j, Job(s.procs[j].h, TxHash(s.procs[j].sub.tx)))
  {
    hide Replacement, ResubmittedRow, Run;
    var e, f := Advance(id, SILENT), Advance(j, SILENT);
    var s1 := Step(cfg, s, e);
    assert s1 == Finish(s, id, LostResubmitRace);
    assert Step(cfg, s1, f) == Enqueue(s1, j, Job(s.procs[j].h, TxHash(s.procs[j].sub.tx)));
    hide Step;
    RunConcat(cfg, s, [e], [f]);
    RunOne(cfg, s, e);
    RunOne(cfg, s1, f);
  }

  /** One takeover: a broadcast more, not a bump more, and another check in the queue. */
  lemma Takeover(cfg: Config, s: State, id: Id, job: Job, j: Id) returns (events: seq<Event>, next: Job)
    requires Core(cfg, s) && Audited(s) && id in s.procs && s.procs[id] == Check(job, Queued)
    requires s.rows[job.h].bumpCount < cfg.maxAttempts
    requires j in s.procs && s.procs[j].Submit? && s.procs[j].h == job.h && s.procs[j].sub.MarkingSubmitted?
    ensures Plain(events) && next == Job(job.h, TxHash(s.procs[j].sub.tx))
    ensures var s' := Run(cfg, s, events);
            && s.nextId in s'.procs && s'.procs[s.nextId] == Check(next, Queued)
            && job.h in s'.rows && s'.rows[job.h].bumpCount == s.rows[job.h].bumpCount
            && id !in s.sent && id in s'.sent && s'.sent == s.sent[id := s'.sent[id]] && s'.sent[id].h == job.h
            && Outbid(cfg, job.txHash.tx, s'.sent[id].tx)
            && s'.calls == s.calls && s'.nextId == s.nextId + 1
            && (forall i :: i in s.procs && i != id && i != j ==> i in s'.procs && s'.procs[i] == s.procs[i])
  {
    hide Core, Audited, Replacement, BuildPackedUserOp, Decimal, Step, Run, Outbid;
    ReplacementOutbids(cfg, s, id, job);
    ProcAuditAt(s, id);
    FreshProc(cfg, s);
    var s1 := Run(cfg, s, Thrice(id, SILENT));
    StickStretch(cfg, s, id, job);
    var take := [Advance(id, SILENT), Advance(j, SILENT), Advance(id, SILENT)];
    var s2 := Run(cfg, s1, take);
    TakeoverStretch(cfg, s1, id, job, s.rows[job.h], j);
    next := Job(job.h, TxHash(s.procs[j].sub.tx));
    var stop := [Advance(id, SILENT)] + [Advance(j, SILENT)];
    OvertakenStops(cfg, s2, id, job, j);
    events := Thrice(id, SILENT) + take + stop;
    RunConcat(cfg, s, Thrice(id, SILENT) + take, stop);
    RunConcat(cfg, s, Thrice(id, SILENT), take);
  }

  /** Racers that had no part in a step still lead at their own nonces, if what was broadcast is at another. */
  lemma RacingStays(s: State, s': State, h: OpHash, k: Id, n: nat, id: Id)
    requires Racing(s, h, k, n) && id >= n
    requires forall i :: i in s.procs && i != id && i != k ==> i in s'.procs && s'.procs[i] == s.procs[i]
    requires forall i :: i in s'.sent && s'.sent[i].h == h ==>
               (i in s.sent && s'.sent[i] == s.sent[i]) || s'.sent[i].tx.nonce < k
    ensures Racing(s', h, k + 1, n)
  {
    forall i | k + 1 <= i < n ensures Racer(s', h, i) {
      assert Racer(s, h, i);
    }
  }

  lemma RacerAt(s: State, h: OpHash, k: Id, n: nat)
    requires Racing(s, h, k, n) && k < n
    ensures Racer(s, h, k)
  {
  }

  lemma SilentOnce(id: Id)
    ensures Plain([Advance(id, SILENT)] + [Advance(id, SILENT)])
  {
  }

  /** Check `id` is queued with the budget unspent after n racing submits and k takeovers; the rest still wait. */
  ghost predicate Contested(cfg: Config, s: State, h: OpHash, n: nat, k: nat, id: Id, job: Job) {
    && job.h == h && n <= id < s.nextId && id in s.procs && s.procs[id] == Check(job, Queued)
    && h in s.rows && s.rows[h].bumpCount == 0 && Racing(s, h, k + 1, n)
    && |Broadcasts(s, h)| == n + k && |Calls(s, h)| == n
    && job.txHash.tx.nonce == k && Leads(cfg, s, h, job.txHash.tx)
  }

  lemma RacersDiffer(cfg: Config, s: State, h: OpHash, op: SponsoredOp, n: nat)
    requires RacersReady(s, h, op, n) && 0 < n
    ensures Racer(s, h, 0) && Leads(cfg, s, h, s.procs[0].sub.tx)
  {
    assert Racer(s, h, 0);
  }

  /** The first of n racing submits wins the PENDING row. */
  lemma FirstWins(cfg: Config, h: OpHash, op: SponsoredOp, signature: Bytes, n: nat)
    returns (events: seq<Event>, job: Job)
    requires BuildPackedUserOp(op, signature).Ok? && 0 < n
    ensures Plain(events) && Contested(cfg, Reached(cfg, events), h, n, 0, n, job)
  {
    hide BuildPackedUserOp, Reached, Plain, Racing, Leads;
    var before := Racers(cfg, h, op, signature, n);
    var s := Reached(cfg, before);
    RacersDiffer(cfg, s, h, op, n);
    RacerAt(s, h, 0, n);
    var tail := [Advance(0, SILENT)] + [Advance(0, SILENT)];
    SilentOnce(0);
    SubmitTail(cfg, s, 0, h, s.procs[0].signature, s.procs[0].sub.tx);
    RunConcat(cfg, Init, before, tail);
    ReachedIs(cfg, before);
    ReachedIs(cfg, before + tail);
    PlainConcat(before, tail);
    events, job := before + tail, Job(h, TxHash(s.procs[0].sub.tx));
    var s' := Reached(cfg, events);
    assert Broadcasts(s', h) == Broadcasts(s, h) && Calls(s', h) == Calls(s, h);
    RacingStays(s, s', h, 0, n, n);
    SameLead(cfg, s, s', h, job.txHash.tx);
  }

  lemma SameLead(cfg: Config, s: State, s': State, h: OpHash, tx: Tx)
    requires Leads(cfg, s, h, tx) && s'.sent == s.sent
    ensures Leads(cfg, s', h, tx)
  {
  }

  lemma ContestedStep(cfg: Config, s: State, s': State, h: OpHash, n: nat, k: nat, id: Id, job: Job, next: Job)
    requires 0 < k < n && Contested(cfg, s, h, n, k - 1, id, job) && Racer(s, h, k)
    requires next == Job(h, TxHash(s.procs[k].sub.tx))
    requires s.nextId in s'.procs && s'.procs[s.nextId] == Check(next, Queued) && s'.nextId == s.nextId + 1
    requires h in s'.rows && s'.rows[h].bumpCount == s.rows[h].bumpCount
    requires id !in s.sent && id in s'.sent && s'.sent == s.sent[id := s'.sent[id]] && s'.sent[id].h == h
    requires Outbid(cfg, job.txHash.tx, s'.sent[id].tx) && s'.calls == s.calls
    requires forall i :: i in s.procs && i != id && i != k ==> i in s'.procs && s'.procs[i] == s.procs[i]
    ensures Contested(cfg, s', h, n, k, s.nextId, next)
  {
    hide Racing, Calls;
    OneMoreBroadcast(s, s', h, id);
    NewLead(cfg, s, s', h, id, job.txHash.tx);
    hide Broadcasts;
    RacingStays(s, s', h, k, n, id);
    StillTops(s, s', h, id, next.txHash.tx);
  }

  lemma StillTops(s: State, s': State, h: OpHash, id: Id, tx: Tx)
    requires Tops(s, h, tx) && id in s'.sent && s'.sent == s.sent[id := s'.sent[id]] && s'.sent[id].tx.nonce != tx.nonce
    ensures Tops(s', h, tx)
  {
  }

  /** Of the n racing submits the first wins the PENDING row, and k others take it over in turn. */
  lemma {:induction false} Takeovers(cfg: Config, h: OpHash, op: SponsoredOp, signature: Bytes, n: nat, k: nat)
    returns (events: seq<Event>, id: Id, job: Job)
    requires BuildPackedUserOp(op, signature).Ok? && k < n && (k == 0 || cfg.maxAttempts > 0)
    ensures Plain(events) && Contested(cfg, Reached(cfg, events), h, n, k, id, job)
  {
    hide BuildPackedUserOp, Core, Audited, Reached, AtMostOnce, Plain, Racing, Broadcasts, Calls, Outbid, Leads, Tops;
    if k == 0 {
      id := n;
      events, job := FirstWins(cfg, h, op, signature, n);
    } else {
      var before, old_id, old_job := Takeovers(cfg, h, op, signature, n, k - 1);
      PlainIsAtMostOnce(before);
      Invariants(cfg, before);
      var s := Reached(cfg, before);
      RacerAt(s, h, k, n);
      var more, next := Takeover(cfg, s, old_id, old_job, k);
      RunConcat(cfg, Init, before, more);
      ReachedIs(cfg, before);
      ReachedIs(cfg, before + more);
      PlainConcat(before, more);
      events, id, job := before + more, s.nextId, next;
      ContestedStep(cfg, s, Reached(cfg, events), h, n, k, old_id, old_job, next);
    }
  }

  /** n calls, MAX + 2n - 1 broadcasts, all of them different transactions when a bump raises a fee at all. */
  ghost predicate ReachesBroadcastBound(cfg: Config, events: seq<Event>, h: OpHash, n: nat) {
    var s := Reached(cfg, events);
    && AtMostOnce(events) && |Calls(s, h)| == n && |Broadcasts(s, h)| == cfg.maxAttempts + 2 * n - 1
    && (cfg.bumpPercent > 0 ==> AllDifferent(s, h))
  }

  /**
   * The broadcast bound MAX + 2n - 1 is reached for every number n of submit calls, by that many different
   * transactions: n broadcasts of racing submits, n - 1 of checks a submit overtakes, MAX of checks that bump.
   * (With MAX = 0 no check ever broadcasts, so only n = 1 reaches it.)
   */
  lemma BroadcastBoundIsReached(cfg: Config, h: OpHash, op: SponsoredOp, signature: Bytes, n: nat)
    requires BuildPackedUserOp(op, signature).Ok? && n >= 1 && (n == 1 || cfg.maxAttempts > 0)
    ensures exists events :: ReachesBroadcastBound(cfg, events, h, n)
  {
    hide BuildPackedUserOp, Reached, Broadcasts, Calls, Racing, AllDifferent, Tops;
    var start, first, opening := Takeovers(cfg, h, op, signature, n, n - 1);
    var events, id, job := Cycles(cfg, start, first, opening, cfg.maxAttempts);
    PlainIsAtMostOnce(events);
    assert ReachesBroadcastBound(cfg, events, h, n);
  }
}
