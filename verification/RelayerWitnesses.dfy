/** Runs that show which assumptions the theorems need. */
module RelayerWitnesses {
  import opened Wrappers
  import opened Numbers
  import opened Schema
  import opened Packing
  import opened UserOpStateMachine
  import opened RelayerProtocol
  import opened RelayerInvariant
  import opened RelayerAudit
  import opened RelayerLineage
  import opened RelayerBaton
  import opened RelayerTheorems
  import opened RelayerStretches
  import opened RelayerContest

  /** A run with k submit calls of the operation, mined at both nonces. */
  ghost predicate MinesTwice(cfg: Config, events: seq<Event>, h: OpHash, k: nat, m: nat, n: nat) {
    && AtMostOnce(events) && |Calls(Reached(cfg, events), h)| == k
    && MinedFor(Reached(cfg, events), h, m) && MinedFor(Reached(cfg, events), h, n)
  }

  /** Two submit calls both broadcast before either marks the row, at different nonces. */
  lemma BothBroadcast(cfg: Config, h: OpHash, op: SponsoredOp, signature: Bytes, m: nat, n: nat)
    returns (events: seq<Event>, tx: Tx, ty: Tx)
    requires BuildPackedUserOp(op, signature).Ok?
    ensures AtMostOnce(events) && tx.nonce == m && ty.nonce == n
    ensures var s := Run(cfg, Init, events);
            && s.procs == map[0 := Submit(h, signature, MarkingSubmitted(tx)),
                              1 := Submit(h, signature, MarkingSubmitted(ty))]
            && s.sent == map[0 := Sent(h, FromSubmit, tx), 1 := Sent(h, FromSubmit, ty)]
            && s.rows == map[h := NewRow(op)] && s.mined == map[] && s.nextId == 2 && |Calls(s, h)| == 2
  {
    hide BuildPackedUserOp, Step, Run, Calls;
    var x, y := Env(0, 0, m, 0, false), Env(0, 0, n, 0, false);
    var start := TwoCalls(cfg, h, op, signature);
    var s0 := Run(cfg, Init, start);
    tx := SubmitStretch(cfg, s0, 0, h, signature, x);
    var s1 := Run(cfg, s0, Thrice(0, x));
    ty := SubmitStretch(cfg, s1, 1, h, signature, y);
    RunConcat(cfg, Init, start + Thrice(0, x), Thrice(1, y));
    RunConcat(cfg, Init, start, Thrice(0, x));
    events := start + Thrice(0, x) + Thrice(1, y);
    SameCalls(s0, Run(cfg, Init, events), h);
  }

  /**
   * With two submit calls the same-nonce argument is gone: both can broadcast before either marks the row, at
   * different nonces, and the chain can mine both.
   */
  lemma TwoSubmitsCanMineTwice(cfg: Config, h: OpHash, op: SponsoredOp, signature: Bytes, m: nat, n: nat)
    requires BuildPackedUserOp(op, signature).Ok? && m != n
    ensures exists events :: MinesTwice(cfg, events, h, 2, m, n)
  {
    hide BuildPackedUserOp, Step, Run, Reached, MinedFor, AtMostOnce, Calls;
    var before, tx, ty := BothBroadcast(cfg, h, op, signature, m, n);
    var s := Run(cfg, Init, before);
    var blocks := MineBoth(cfg, s, h, tx, ty);
    RunConcat(cfg, Init, before, blocks);
    ReachedIs(cfg, before + blocks);
    DeliveredOnce(before, blocks);
    SameCalls(s, Reached(cfg, before + blocks), h);
    assert MinesTwice(cfg, before + blocks, h, 2, m, n);
  }

  /** Further submit calls that never get to run: nothing but the number of calls changes. */
  lemma {:induction false} IdleCalls(cfg: Config, events: seq<Event>, h: OpHash, signature: Bytes, k: nat)
    returns (more: seq<Event>)
    requires AtMostOnce(events)
    ensures AtMostOnce(more)
    ensures var s, s' := Reached(cfg, events), Reached(cfg, more);
            && s'.rows == s.rows && s'.sent == s.sent && s'.mined == s.mined
            && |Calls(s', h)| == |Calls(s, h)| + k
  {
    hide AtMostOnce, Core, Audited, Lineage, Batons, StepSubmit, StepCheck, Run;
    if k == 0 {
      more := events;
    } else {
      var before := IdleCalls(cfg, events, h, signature, k - 1);
      var s := Run(cfg, Init, before);
      Invariants(cfg, before);
      FreshCall(s);
      var e := [Call(h, signature)];
      more := before + e;
      CallsAreDeliveredOnce(h, signature);
      DeliveredOnce(before, e);
      RunConcat(cfg, Init, before, e);
      RunOne(cfg, s, e[0]);
      OneMoreCall(s, Step(cfg, s, e[0]), h, s.nextId);
    }
  }

  lemma CallsAreDeliveredOnce(h: OpHash, signature: Bytes)
    ensures AtMostOnce([Call(h, signature)])
  {
  }

  lemma FreshCall(s: State)
    requires Audited(s)
    ensures s.nextId !in s.calls
  {
  }

  /** With k >= 2 submit calls some run mines the operation at any two nonces. */
  lemma ManySubmitsCanMineTwice(cfg: Config, h: OpHash, op: SponsoredOp, signature: Bytes, k: nat, m: nat, n: nat)
    requires BuildPackedUserOp(op, signature).Ok? && k >= 2 && m != n
    ensures exists events :: MinesTwice(cfg, events, h, k, m, n)
  {
    hide BuildPackedUserOp, Reached, AtMostOnce;
    TwoSubmitsCanMineTwice(cfg, h, op, signature, m, n);
    var events :| MinesTwice(cfg, events, h, 2, m, n);
    var more := IdleCalls(cfg, events, h, signature, k - 2);
    assert MinesTwice(cfg, more, h, k, m, n);
  }

  /** No run with k submit calls of the operation mines it at two nonces. */
  ghost predicate AlwaysMinedOnce(cfg: Config, h: OpHash, k: nat) {
    forall events, m, n :: MinesTwice(cfg, events, h, k, m, n) ==> m == n
  }

  /** The exact condition under which the chain mines an operation at most once: no more than one submit call. */
  lemma MinedOnceIffAtMostOneCall(cfg: Config, h: OpHash, op: SponsoredOp, signature: Bytes, k: nat)
    requires BuildPackedUserOp(op, signature).Ok?
    ensures AlwaysMinedOnce(cfg, h, k) <==> k <= 1
  {
    hide BuildPackedUserOp, MinesTwice;
    if k <= 1 {
      forall events, m, n | MinesTwice(cfg, events, h, k, m, n) ensures m == n {
        OneCallMinesOnce(cfg, events, h, k, m, n);
      }
    } else {
      ManySubmitsCanMineTwice(cfg, h, op, signature, k, 0, 1);
    }
  }

  lemma OneCallMinesOnce(cfg: Config, events: seq<Event>, h: OpHash, k: nat, m: nat, n: nat)
    requires MinesTwice(cfg, events, h, k, m, n) && k <= 1
    ensures m == n
  {
    hide Reached, MinedFor, SubmitsAgree, Calls, AtMostOnce;
    OneCallAgrees(cfg, events, h);
    AgreeingSubmitsMineOnce(cfg, events, h, m, n);
  }

  lemma OneCallAgrees(cfg: Config, events: seq<Event>, h: OpHash)
    requires AtMostOnce(events) && |Calls(Reached(cfg, events), h)| <= 1
    ensures SubmitsAgree(Reached(cfg, events), h)
  {
    Invariants(cfg, events);
    hide Reached, Core, Audited, Lineage, Batons, Broadcasts, Calls, SubmitsAgree;
    var s := Reached(cfg, events);
    BroadcastsSplit(s, h);
    SubsetSize(SubmitBroadcasts(s, h), Calls(s, h));
    AtMostOneSubmit(s, h);
  }

  lemma AtMostOneSubmit(s: State, h: OpHash)
    requires |SubmitBroadcasts(s, h)| <= 1
    ensures SubmitsAgree(s, h)
  {
    forall a, b | FromCall(s.sent, h, a) && FromCall(s.sent, h, b) ensures a == b {
      assert {a, b} <= SubmitBroadcasts(s, h);
      SubsetSize({a, b}, SubmitBroadcasts(s, h));
    }
  }

  // ----- FAILED is not always the last word

  /** From its queued job a check finds no receipt, no bumps left, and fails the row. */
  lemma ExhaustStretch(cfg: Config, s: State, id: Id, job: Job)
    requires id in s.procs && s.procs[id] == Check(job, Queued)
    requires job.h in s.rows && s.rows[job.h].status == SUBMITTED && s.rows[job.h].bumpCount >= cfg.maxAttempts
    ensures var s' := Run(cfg, s, Thrice(id, SILENT) + [Advance(id, SILENT)]);
            && s'.rows == s.rows[job.h := FailedRow(s.rows[job.h], ExceededMaxBumps(cfg.maxAttempts))]
            && s'.sent == s.sent && s'.calls == s.calls && s'.mined == s.mined
  {
    hide Replacement, StepSubmit, Run;
    var e := Advance(id, SILENT);
    var s1, s2 := Put(s, id, Check(job, Fetching)), Put(s, id, Check(job, Loading));
    var s3 := Put(s, id, Check(job, MarkingExhausted));
    assert Step(cfg, s, e) == s1;
    assert Step(cfg, s1, e) == s2 by { assert Put(s1, id, Check(job, Loading)) == s2; }
    assert Step(cfg, s2, e) == s3 by { assert Put(s2, id, Check(job, MarkingExhausted)) == s3; }
    ExhaustedFails(cfg, s3, id, job);
    hide Step;
    RunThree(cfg, s, e, e, e);
    RunConcat(cfg, s, Thrice(id, SILENT), [e]);
    RunOne(cfg, s3, e);
  }

  lemma ExhaustedFails(cfg: Config, s: State, id: Id, job: Job)
    requires id in s.procs && s.procs[id] == Check(job, MarkingExhausted)
    requires job.h in s.rows && s.rows[job.h].status == SUBMITTED
    ensures var s' := Step(cfg, s, Advance(id, SILENT));
            && s'.rows == s.rows[job.h := FailedRow(s.rows[job.h], ExceededMaxBumps(cfg.maxAttempts))]
            && s'.sent == s.sent && s'.calls == s.calls && s'.mined == s.mined
  {
    hide Replacement, FailedRow, AuditOf, Moved;
  }

  /** One call, every bump spent, the row FAILED, and then a handleOps of it mined with success. */
  ghost predicate MinedAfterGivingUp(cfg: Config, events: seq<Event>, h: OpHash, n: nat) {
    var s := Reached(cfg, events);
    && AtMostOnce(events) && |Calls(s, h)| == 1 && h in s.rows && s.rows[h].status == FAILED
    && s.rows[h].failureReason == Some(ExceededMaxBumps(cfg.maxAttempts)) && SucceededFor(s, h, n)
  }

  /** For every MAX an operation given up on can still succeed, so FAILED does not mean never mined. */
  lemma GivenUpCanStillSucceed(cfg: Config, h: OpHash, op: SponsoredOp, signature: Bytes)
    requires BuildPackedUserOp(op, signature).Ok?
    ensures exists events, n :: MinedAfterGivingUp(cfg, events, h, n)
  {
    hide BuildPackedUserOp, Reached, Broadcasts, Calls, Racing, Leads, Core, Run;
    var start, first, opening := Takeovers(cfg, h, op, signature, 1, 0);
    var before, id, job := Cycles(cfg, start, first, opening, cfg.maxAttempts);
    PlainIsAtMostOnce(before);
    ReachedIs(cfg, before);
    PlainMinesNothing(cfg, Init, before);
    var s := Reached(cfg, before);
    RunKeepsCore(cfg, before);
    CoreAt(cfg, s, id);
    var fail := Thrice(id, SILENT) + [Advance(id, SILENT)];
    ExhaustStretch(cfg, s, id, job);
    var s1 := Run(cfg, s, fail);
    RunConcat(cfg, Init, before, fail);
    var i := SomeBroadcast(s, h);
    var block := [Mine(i, Receipt(true, 0, 0))];
    MinesOne(cfg, s1, h, i);
    RunOne(cfg, s1, block[0]);
    RunConcat(cfg, Init, before + fail, block);
    ReachedIs(cfg, before + fail + block);
    BlocksAreDeliveredOnce(before, fail, block);
    SameCalls(s, Reached(cfg, before + fail + block), h);
    assert MinedAfterGivingUp(cfg, before + fail + block, h, s.sent[i].tx.nonce);
  }

  lemma BlocksAreDeliveredOnce(a: seq<Event>, b: seq<Event>, c: seq<Event>)
    requires AtMostOnce(a) && |b| == 4 && |c| == 1 && c[0].Mine?
    requires b[0].Advance? && b[1].Advance? && b[2].Advance? && b[3].Advance?
    ensures AtMostOnce(a + b + c)
  {
    DeliveredOnce(a, b);
    DeliveredOnce(a + b, c);
  }

  lemma SomeBroadcast(s: State, h: OpHash) returns (i: Id)
    requires |Broadcasts(s, h)| > 0
    ensures i in s.sent && s.sent[i].h == h
  {
    i :| i in Broadcasts(s, h);
  }

  lemma MinesOne(cfg: Config, s: State, h: OpHash, i: Id)
    requires i in s.sent && s.sent[i].h == h && s.sent[i].tx.nonce !in s.mined
    ensures var s' := Step(cfg, s, Mine(i, Receipt(true, 0, 0)));
            SucceededFor(s', h, s.sent[i].tx.nonce) && s'.rows == s.rows && s'.calls == s.calls
  {
    var s' := Step(cfg, s, Mine(i, Receipt(true, 0, 0)));
    assert WasSent(s'.sent, h, s.sent[i].tx, i);
  }

  /** k calls, the row FAILED as reverted, and another handleOps of it mined with success. */
  ghost predicate SucceededAfterRevert(cfg: Config, events: seq<Event>, h: OpHash, k: nat, n: nat) {
    var s := Reached(cfg, events);
    && AtMostOnce(events) && |Calls(s, h)| == k && h in s.rows && s.rows[h].status == FAILED
    && s.rows[h].failureReason == Some(TransactionReverted) && SucceededFor(s, h, n)
  }

  const ANSWERED: Env := Env(0, 0, 0, 0, true)

  /** A check whose transaction was mined and reverted fails the row. */
  lemma RevertStretch(cfg: Config, s: State, id: Id, job: Job)
    requires id in s.procs && s.procs[id] == Check(job, Queued)
    requires ReceiptOf(s.mined, job.txHash).Some? && !ReceiptOf(s.mined, job.txHash).value.success
    requires job.h in s.rows && s.rows[job.h].status == SUBMITTED
    ensures var s' := Run(cfg, s, Thrice(id, ANSWERED));
            && s'.rows == s.rows[job.h := FailedRow(s.rows[job.h], TransactionReverted)]
            && s'.sent == s.sent && s'.calls == s.calls && s'.mined == s.mined
  {
    hide Replacement, StepSubmit, Run, FailedRow, ReceiptOf, AuditOf, Moved;
    var e := Advance(id, ANSWERED);
    var s1, s2 := Put(s, id, Check(job, Fetching)), Put(s, id, Check(job, MarkingReverted));
    assert Step(cfg, s, e) == s1;
    assert Step(cfg, s1, e) == s2 by { assert Put(s1, id, Check(job, MarkingReverted)) == s2; }
    var s3 := Step(cfg, s2, e);
    assert s3.rows == s.rows[job.h := FailedRow(s.rows[job.h], TransactionReverted)]
        && s3.sent == s.sent && s3.calls == s.calls && s3.mined == s.mined;
    hide Step;
    RunThree(cfg, s, e, e, e);
  }

  /** Both racing broadcasts are mined, the winner's reverted and the loser's not. */
  lemma MineMixed(cfg: Config, s: State, h: OpHash, tx: Tx, ty: Tx) returns (events: seq<Event>)
    requires 0 in s.sent && 1 in s.sent && s.sent[0] == Sent(h, FromSubmit, tx) && s.sent[1] == Sent(h, FromSubmit, ty)
    requires s.mined == map[] && tx.nonce != ty.nonce
    ensures AtMostOnce(events)
    ensures var s' := Run(cfg, s, events);
            && s' == s.(mined := s'.mined) && SucceededFor(s', h, ty.nonce)
            && ReceiptOf(s'.mined, TxHash(tx)) == Some(Receipt(false, 0, 0))
  {
    var e, f := Mine(0, Receipt(false, 0, 0)), Mine(1, Receipt(true, 0, 0));
    events := [e] + [f];
    RunConcat(cfg, s, [e], [f]);
    RunOne(cfg, s, e);
    RunOne(cfg, Step(cfg, s, e), f);
    assert WasSent(s.sent, h, ty, 1);
  }

  lemma RevertedCanStillSucceed(cfg: Config, h: OpHash, op: SponsoredOp, signature: Bytes, k: nat, m: nat, n: nat)
    requires BuildPackedUserOp(op, signature).Ok? && k >= 2 && m != n
    ensures exists events :: SucceededAfterRevert(cfg, events, h, k, n)
  {
    hide BuildPackedUserOp, Step, Run, Reached, SucceededFor, ReceiptOf, AtMostOnce, Plain, Calls;
    var before, tx, ty := BothBroadcast(cfg, h, op, signature, m, n);
    var s := Run(cfg, Init, before);
    var tail := [Advance(0, SILENT)] + [Advance(0, SILENT)];
    SilentOnce(0);
    PlainIsAtMostOnce(tail);
    SubmitTail(cfg, s, 0, h, signature, tx);
    PlainMinesNothing(cfg, s, tail);
    var s1 := Run(cfg, s, tail);
    var blocks := MineMixed(cfg, s1, h, tx, ty);
    var s2 := Run(cfg, s1, blocks);
    RevertStretch(cfg, s2, 2, Job(h, TxHash(tx)));
    AnsweredOnce(2);
    RunParts(cfg, Init, before, tail, blocks, Thrice(2, ANSWERED));
    var all := before + tail + blocks + Thrice(2, ANSWERED);
    DeliveredOnce(before, tail);
    DeliveredOnce(before + tail, blocks);
    DeliveredOnce(before + tail + blocks, Thrice(2, ANSWERED));
    ReachedIs(cfg, all);
    SameCalls(s, Reached(cfg, all), h);
    SameSuccess(s2, Reached(cfg, all), h, n);
    var more := IdleCalls(cfg, all, h, signature, k - 2);
    SameSuccess(Reached(cfg, all), Reached(cfg, more), h, n);
    assert SucceededAfterRevert(cfg, more, h, k, n);
  }

  lemma AnsweredOnce(id: Id)
    ensures AtMostOnce(Thrice(id, ANSWERED))
  {
  }

  lemma SameSuccess(s: State, s': State, h: OpHash, n: nat)
    requires SucceededFor(s, h, n) && s'.sent == s.sent && s'.mined == s.mined
    ensures SucceededFor(s', h, n)
  {
  }

  /** The exact condition under which a reverted row stays unsuccessful: no more than one submit call. */
  lemma RevertIsFinalIffAtMostOneCall(cfg: Config, h: OpHash, op: SponsoredOp, signature: Bytes, k: nat)
    requires BuildPackedUserOp(op, signature).Ok?
    ensures (forall events, n :: !SucceededAfterRevert(cfg, events, h, k, n)) <==> k <= 1
  {
    hide BuildPackedUserOp, SucceededAfterRevert;
    if k <= 1 {
      forall events, n ensures !SucceededAfterRevert(cfg, events, h, k, n) {
        OneCallRevertIsFinal(cfg, events, h, k, n);
      }
    } else {
      RevertedCanStillSucceed(cfg, h, op, signature, k, 0, 1);
    }
  }

  lemma OneCallRevertIsFinal(cfg: Config, events: seq<Event>, h: OpHash, k: nat, n: nat)
    requires k <= 1
    ensures !SucceededAfterRevert(cfg, events, h, k, n)
  {
    hide Reached, SucceededFor, SubmitsAgree, Calls, AtMostOnce;
    if SucceededAfterRevert(cfg, events, h, k, n) {
      OneCallAgrees(cfg, events, h);
      RevertedNeverSucceeds(cfg, events, h, n);
    }
  }

  lemma TwoCalls(cfg: Config, h: OpHash, op: SponsoredOp, signature: Bytes) returns (events: seq<Event>)
    ensures AtMostOnce(events)
    ensures var s := Run(cfg, Init, events);
            && s.procs == map[0 := Submit(h, signature, Reading), 1 := Submit(h, signature, Reading)]
            && s.rows == map[h := NewRow(op)] && s.sent == map[] && s.mined == map[] && s.nextId == 2
            && |Calls(s, h)| == 2
  {
    var call := Call(h, signature);
    events := [Create(h, op), call, call];
    RunThree(cfg, Init, Create(h, op), call, call);
    assert Calls(Run(cfg, Init, events), h) == {0, 1};
  }

  lemma MineBoth(cfg: Config, s: State, h: OpHash, tx: Tx, ty: Tx) returns (events: seq<Event>)
    requires 0 in s.sent && 1 in s.sent && s.sent[0] == Sent(h, FromSubmit, tx) && s.sent[1] == Sent(h, FromSubmit, ty)
    requires s.mined == map[] && tx.nonce != ty.nonce
    ensures AtMostOnce(events)
    ensures var s' := Run(cfg, s, events);
            MinedFor(s', h, tx.nonce) && MinedFor(s', h, ty.nonce) && s'.calls == s.calls
  {
    var e, f := Mine(0, Receipt(true, 0, 0)), Mine(1, Receipt(true, 0, 0));
    events := [e] + [f];
    RunConcat(cfg, s, [e], [f]);
    RunOne(cfg, s, e);
    RunOne(cfg, Step(cfg, s, e), f);
    var s' := Run(cfg, s, events);
    assert WasSent(s'.sent, h, tx, 0) && WasSent(s'.sent, h, ty, 1);
  }
}
