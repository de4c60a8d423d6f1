/** What every run of the relayer guarantees, stated over arbitrary event sequences. */
module RelayerTheorems {
  import opened Wrappers
  import opened Numbers
  import opened Schema
  import opened Packing
  import opened GasBump
  import opened UserOpStateMachine
  import opened RelayerProtocol
  import opened RelayerInvariant
  import opened RelayerAudit
  import opened RelayerLineage
  import opened RelayerBaton
  import opened RelayerShapes

  function Reached(cfg: Config, events: seq<Event>): State {
    Run(cfg, Init, events)
  }

  lemma Invariants(cfg: Config, events: seq<Event>)
    requires AtMostOnce(events)
    ensures var s := Reached(cfg, events); Core(cfg, s) && Audited(s) && Lineage(cfg, s) && Batons(cfg, s)
  {
    RunKeepsCore(cfg, events);
    RunKeepsAudit(cfg, events);
    RunKeepsLineage(cfg, events);
    RunKeepsBatons(cfg, events);
  }

  // ----- the token

  /**
   * Two agents never hold a confirmation token for one operation; the row of a held token is SUBMITTED under
   * the token's own hash, so none is held while the row is PENDING or STUCK; and no check ever loses its
   * conditional update, misses its row or fails to rebuild the transaction it replaces.
   */
  lemma TokenSafety(cfg: Config, events: seq<Event>)
    requires AtMostOnce(events)
    ensures var s := Reached(cfg, events);
            && (forall i, j, h :: Holds(s, i, h) && Holds(s, j, h) ==> i == j)
            && (forall i, h :: Holds(s, i, h) ==> h in s.rows && s.rows[h].status == SUBMITTED
                                                  && s.rows[h].submittedTxHash == Some(Token(s.procs[i]).value.txHash))
            && (forall i :: i in s.procs ==> s.procs[i] != Done(LostCheckUpdate) && s.procs[i] != Done(RowMissing)
                                             && s.procs[i] != Done(ReplacementThrew))
  {
    Invariants(cfg, events);
    hide Audited, Lineage, Batons;
    var s := Reached(cfg, events);
    assert forall i :: i in s.procs ==> ProcOk(cfg, s, s.procs[i]) && TokenOk(s, i);
  }

  /** The read of bumpCount and its increment are steps apart, yet the budget is never overrun. */
  lemma BumpBudget(cfg: Config, events: seq<Event>, h: OpHash)
    requires AtMostOnce(events) && h in Reached(cfg, events).rows
    ensures var row := Reached(cfg, events).rows[h];
            row.bumpCount <= cfg.maxAttempts && (row.status == STUCK ==> row.bumpCount < cfg.maxAttempts)
  {
    RunKeepsCore(cfg, events);
  }

  /** A final row is backed by the receipt of exactly the hash it stores, or by an exhausted bump budget. */
  lemma FinalRowsHaveEvidence(cfg: Config, events: seq<Event>, h: OpHash)
    requires AtMostOnce(events) && h in Reached(cfg, events).rows
    ensures Evidence(cfg, Reached(cfg, events).mined, Reached(cfg, events).rows[h])
  {
    RunKeepsCore(cfg, events);
  }

  // ----- histories and counts

  /** Status histories are non-empty prefixes of PENDING (SUBMITTED STUCK)* SUBMITTED (CONFIRMED | FAILED). */
  lemma HistoriesAreLifecycles(cfg: Config, events: seq<Event>, h: OpHash)
    requires AtMostOnce(events) && h in Reached(cfg, events).rows
    ensures var s := Reached(cfg, events);
            h in s.audit && Lifecycle(s.audit[h].history)
            && s.audit[h].history[|s.audit[h].history| - 1] == s.rows[h].status
  {
    RunKeepsAudit(cfg, events);
    assert RowAudit(Reached(cfg, events), h);
  }

  ghost function Calls(s: State, h: OpHash): set<Id> {
    set i | i in s.calls && s.calls[i] == h
  }

  ghost function Broadcasts(s: State, h: OpHash): set<Id> {
    set i | i in s.sent && s.sent[i].h == h
  }

  ghost function SubmitBroadcasts(s: State, h: OpHash): set<Id> {
    set i | FromCall(s.sent, h, i) && i in s.sent
  }

  lemma SubsetSize(a: set<Id>, b: set<Id>)
    requires a <= b
    ensures |a| <= |b|
  {
    assert b == a + (b - a);
  }

  /** Every broadcast is one of a submit call, or of a worker that marked the row STUCK. */
  lemma BroadcastsSplit(s: State, h: OpHash)
    requires Audited(s)
    ensures Broadcasts(s, h) <= SubmitBroadcasts(s, h) + AuditOf(s, h).stuckBy
    ensures SubmitBroadcasts(s, h) <= Calls(s, h)
    ensures h in s.rows ==> s.audit[h].firstBy + s.audit[h].takenOverBy <= SubmitBroadcasts(s, h)
  {
    hide Ledger;
    forall i | i in Broadcasts(s, h) ensures i in SubmitBroadcasts(s, h) + AuditOf(s, h).stuckBy {
      assert SentAudit(s, i);
    }
    forall i | i in SubmitBroadcasts(s, h) ensures i in Calls(s, h) {
      assert SentAudit(s, i);
    }
    if h in s.rows {
      assert RowAudit(s, h);
    }
  }

  /**
   * Of any number of racing submits exactly one wins the PENDING row, and every STUCK mark is paid for by a bump,
   * a takeover or the current status.
   */
  lemma StuckAccounting(cfg: Config, events: seq<Event>, h: OpHash)
    requires AtMostOnce(events) && h in Reached(cfg, events).rows
    ensures var s := Reached(cfg, events);
            && h in s.audit
            && var a, row := s.audit[h], s.rows[h];
            && |a.firstBy| == (if row.status == PENDING then 0 else 1)
            && row.bumpCount == |a.bumpedBy|
            && |a.stuckBy| == row.bumpCount + |a.takenOverBy| + (if row.status == STUCK then 1 else 0)
  {
    RunKeepsAudit(cfg, events);
    assert RowAudit(Reached(cfg, events), h);
  }

  /**
   * With n >= 1 submit calls an operation is broadcast at most MAX + 2n - 1 times and its row changes status
   * at most 2 MAX + 2n times; with none it is never broadcast.
   */
  lemma BroadcastBound(cfg: Config, events: seq<Event>, h: OpHash)
    requires AtMostOnce(events)
    ensures var s := Reached(cfg, events);
            var n := |Calls(s, h)|;
            && (n == 0 ==> |Broadcasts(s, h)| == 0)
            && (n >= 1 ==> |Broadcasts(s, h)| <= cfg.maxAttempts + 2 * n - 1)
            && (n >= 1 && h in s.audit ==> |s.audit[h].history| <= 2 * cfg.maxAttempts + 2 * n + 1)
  {
    Invariants(cfg, events);
    hide Core, Audited, Lineage, Batons, Reached;
    BoundBroadcasts(cfg, Reached(cfg, events), h);
  }

  lemma BoundBroadcasts(cfg: Config, s: State, h: OpHash)
    requires Core(cfg, s) && Audited(s)
    ensures var n := |Calls(s, h)|;
            && (n == 0 ==> |Broadcasts(s, h)| == 0)
            && (n >= 1 ==> |Broadcasts(s, h)| <= cfg.maxAttempts + 2 * n - 1)
            && (n >= 1 && h in s.audit ==> |s.audit[h].history| <= 2 * cfg.maxAttempts + 2 * n + 1)
  {
    hide Core, Audited, Calls, Broadcasts, SubmitBroadcasts;
    BroadcastsSplit(s, h);
    AuditHas(s, h);
    var subs := SubmitBroadcasts(s, h);
    SubsetSize(subs, Calls(s, h));
    SubsetSize(Broadcasts(s, h), subs + AuditOf(s, h).stuckBy);
    if h in s.rows {
      LedgerAt(cfg, s, h);
      var a := s.audit[h];
      SubsetSize(a.firstBy + a.takenOverBy, subs);
      assert |a.firstBy + a.takenOverBy| == |a.firstBy| + |a.takenOverBy|;
    }
  }

  lemma LedgerAt(cfg: Config, s: State, h: OpHash)
    requires Core(cfg, s) && Audited(s) && h in s.rows
    ensures h in s.audit && s.rows[h].bumpCount <= cfg.maxAttempts
    ensures s.rows[h].status == STUCK ==> s.rows[h].bumpCount < cfg.maxAttempts
    ensures var a, status := s.audit[h], s.rows[h].status;
            && |a.history| == 1 + |a.firstBy| + |a.stuckBy| + |a.takenOverBy| + |a.bumpedBy| + Flag(Terminal(status))
            && |a.bumpedBy| == s.rows[h].bumpCount
            && |a.stuckBy| == |a.bumpedBy| + |a.takenOverBy| + Flag(status == STUCK)
            && |a.firstBy| == Flag(status != PENDING) && a.firstBy !! a.takenOverBy
            && (status == PENDING ==> |a.history| == 1)
  {
    assert RowAudit(s, h) && RowOk(cfg, s.mined, s.rows[h]);
    LifecycleParity(s.audit[h].history);
  }

  // ----- what is broadcast

  /** A genuine replacement: same nonce, each fee bumped once, higher exactly when a bump is worth a wei. */
  ghost predicate IsFeeBump(cfg: Config, was: Tx, tx: Tx) {
    && tx.nonce == was.nonce
    && tx.maxFeePerGas == Bump(cfg.bumpPercent, was.maxFeePerGas) >= was.maxFeePerGas
    && tx.maxPriorityFeePerGas == Bump(cfg.bumpPercent, was.maxPriorityFeePerGas) >= was.maxPriorityFeePerGas
    && (tx.maxFeePerGas > was.maxFeePerGas <==> was.maxFeePerGas * cfg.bumpPercent >= 100)
    && (tx.maxPriorityFeePerGas > was.maxPriorityFeePerGas <==> was.maxPriorityFeePerGas * cfg.bumpPercent >= 100)
  }

  /**
   * Every replacement broadcast in any run replaces a transaction another agent did broadcast for the same
   * operation, and is a genuine fee bump of it.
   */
  lemma ReplacementsAreBumps(cfg: Config, events: seq<Event>, i: Id)
    requires AtMostOnce(events) && i in Reached(cfg, events).sent
    requires Reached(cfg, events).sent[i].origin.Replaces?
    ensures var s := Reached(cfg, events);
            var sent := s.sent[i];
            && IsFeeBump(cfg, sent.origin.replaced.tx, sent.tx)
            && exists j :: j != i && WasSent(s.sent, sent.h, sent.origin.replaced.tx, j)
  {
    Invariants(cfg, events);
    hide Core, Audited, Lineage, Batons, Reached, IsFeeBump, WasSent;
    ReplacementIsBump(cfg, Reached(cfg, events), i);
  }

  lemma ReplacementIsBump(cfg: Config, s: State, i: Id)
    requires Lineage(cfg, s) && i in s.sent && s.sent[i].origin.Replaces?
    ensures IsFeeBump(cfg, s.sent[i].origin.replaced.tx, s.sent[i].tx)
    ensures exists j :: j != i && WasSent(s.sent, s.sent[i].h, s.sent[i].origin.replaced.tx, j)
  {
    hide RowLineage, ProcLineage, Root, GasRoot, CarriesOp, BuildPackedUserOp;
    assert SentLineage(cfg, s, i);
    BumpRaises(cfg.bumpPercent, s.sent[i].origin.replaced.tx.maxFeePerGas);
    BumpRaises(cfg.bumpPercent, s.sent[i].origin.replaced.tx.maxPriorityFeePerGas);
  }

  /**
   * Every broadcast of an operation, in any run, is some submit broadcast of it with both fees bumped k <= MAX
   * times at the same nonce, with the gas limit and signature of some submit broadcast, around the stored struct.
   */
  lemma BroadcastProvenance(cfg: Config, events: seq<Event>, i: Id) returns (a: Id, k: nat, c: Id)
    requires AtMostOnce(events) && i in Reached(cfg, events).sent
    ensures var s := Reached(cfg, events);
            var h := s.sent[i].h;
            && Root(cfg, s.sent, h, s.sent[i].tx, a, k) && k <= cfg.maxAttempts
            && GasRoot(s.sent, h, s.sent[i].tx.gas, s.sent[i].tx.userOp.signature, c)
            && CarriesOp(s.rows, h, s.sent[i].tx.userOp.signature, s.sent[i].tx)
  {
    Invariants(cfg, events);
    hide BuildPackedUserOp, Core, Audited, Lineage, Batons, Reached, Root, GasRoot, CarriesOp;
    a, k, c := Provenance(cfg, Reached(cfg, events), i);
  }

  lemma Provenance(cfg: Config, s: State, i: Id) returns (a: Id, k: nat, c: Id)
    requires Lineage(cfg, s) && i in s.sent
    ensures var h, tx := s.sent[i].h, s.sent[i].tx;
            && Root(cfg, s.sent, h, tx, a, k) && k <= cfg.maxAttempts
            && GasRoot(s.sent, h, tx.gas, tx.userOp.signature, c)
            && CarriesOp(s.rows, h, tx.userOp.signature, tx)
  {
    hide Lineage, BuildPackedUserOp, RowLineage, ProcLineage;
    LineageAt(cfg, s, i, s.sent[i].h);
    a, k :| Root(cfg, s.sent, s.sent[i].h, s.sent[i].tx, a, k) && k <= cfg.maxAttempts;
    c :| GasRoot(s.sent, s.sent[i].h, s.sent[i].tx.gas, s.sent[i].tx.userOp.signature, c);
  }

  /**
   * Fees are bounded in every run: both fees of a broadcast lie between some submit broadcast's and those
   * bumped MAX times, and a submit that estimated priority <= max keeps that order in everything descending from it.
   */
  lemma FeesAreBounded(cfg: Config, events: seq<Event>, i: Id)
    requires AtMostOnce(events) && i in Reached(cfg, events).sent
    ensures FeesBounded(cfg, Reached(cfg, events), i)
  {
    Invariants(cfg, events);
    hide Core, Audited, Lineage, Batons, Reached, FeesBounded;
    BoundFees(cfg, Reached(cfg, events), i);
  }

  /** `fee` lies between `base` and `base` grown by m bumps of p percent, no rounding. */
  predicate FeeBounded(p: nat, m: nat, base: nat, fee: nat) {
    base <= fee && Pow(100, m) * fee <= base * Pow(100 + p, m)
  }

  lemma BumpsAreBounded(p: nat, base: nat, k: nat, m: nat)
    requires k <= m
    ensures FeeBounded(p, m, base, BumpN(p, base, k))
  {
    hide BumpN, Pow;
    NoBumps(p, base);
    BumpNGrows(p, base, 0, k);
    BumpNGrows(p, base, k, m);
    BumpNBounds(p, base, m);
    Scale(Pow(100, m), BumpN(p, base, k), BumpN(p, base, m));
  }

  ghost predicate FeesBounded(cfg: Config, s: State, i: Id)
    requires i in s.sent
  {
    var tx, p, m := s.sent[i].tx, cfg.bumpPercent, cfg.maxAttempts;
    exists a: Id :: FromCall(s.sent, s.sent[i].h, a)
      && FeeBounded(p, m, s.sent[a].tx.maxFeePerGas, tx.maxFeePerGas)
      && FeeBounded(p, m, s.sent[a].tx.maxPriorityFeePerGas, tx.maxPriorityFeePerGas)
      && (s.sent[a].tx.maxPriorityFeePerGas <= s.sent[a].tx.maxFeePerGas
          ==> tx.maxPriorityFeePerGas <= tx.maxFeePerGas)
  }

  lemma BoundFees(cfg: Config, s: State, i: Id)
    requires Lineage(cfg, s) && i in s.sent
    ensures FeesBounded(cfg, s, i)
  {
    hide Lineage, CarriesOp, BumpN, FeeBounded, BuildPackedUserOp;
    var a, k, c := Provenance(cfg, s, i);
    var f, p := s.sent[a].tx.maxFeePerGas, cfg.bumpPercent;
    BumpsAreBounded(p, f, k, cfg.maxAttempts);
    BumpsAreBounded(p, s.sent[a].tx.maxPriorityFeePerGas, k, cfg.maxAttempts);
    if s.sent[a].tx.maxPriorityFeePerGas <= f {
      BumpNKeepsOrder(p, s.sent[a].tx.maxPriorityFeePerGas, f, k);
    }
  }

  lemma NoBumps(percent: nat, fee: nat)
    ensures BumpN(percent, fee, 0) == fee
  {
  }

  // ----- one submit broadcast

  /** At most one submit call of the operation got as far as its broadcast. */
  ghost predicate SoleSubmit(s: State, h: OpHash) {
    forall a, b :: FromCall(s.sent, h, a) && FromCall(s.sent, h, b) ==> a == b
  }

  lemma SoleSubmitNeverTakenOver(cfg: Config, s: State, h: OpHash)
    requires Core(cfg, s) && Audited(s) && h in s.rows && SoleSubmit(s, h)
    ensures NeverTakenOver(s, h)
  {
    hide Core, Audited;
    LedgerAt(cfg, s, h);
    BroadcastsSplit(s, h);
    var a, subs := s.audit[h], SubmitBroadcasts(s, h);
    AtMostOneElement(subs);
    SubsetSize(a.firstBy + a.takenOverBy, subs);
    assert |a.firstBy + a.takenOverBy| == |a.firstBy| + |a.takenOverBy|;
  }

  lemma AtMostOneElement(ids: set<Id>)
    requires forall a, b :: a in ids && b in ids ==> a == b
    ensures |ids| <= 1
  {
    if a :| a in ids {
      assert ids == {a};
    }
  }

  /**
   * With one submit broadcast, all broadcasts of the operation in the whole run agree on everything but fees:
   * struct, signature, target, relayer nonce and gas limit.
   */
  lemma SoleSubmitOneTransaction(cfg: Config, events: seq<Event>, h: OpHash, i: Id, j: Id)
    requires AtMostOnce(events) && SoleSubmit(Reached(cfg, events), h)
    requires i in Broadcasts(Reached(cfg, events), h) && j in Broadcasts(Reached(cfg, events), h)
    ensures var t, u := Reached(cfg, events).sent[i].tx, Reached(cfg, events).sent[j].tx;
            t.(maxFeePerGas := u.maxFeePerGas, maxPriorityFeePerGas := u.maxPriorityFeePerGas) == u
  {
    var a, k, c := BroadcastProvenance(cfg, events, i);
    var a', k', c' := BroadcastProvenance(cfg, events, j);
    hide BuildPackedUserOp, Reached;
    var s := Reached(cfg, events);
    assert FromCall(s.sent, h, a) && FromCall(s.sent, h, a') && FromCall(s.sent, h, c) && FromCall(s.sent, h, c');
  }

  /** Nonce `n` was mined with a transaction some agent broadcast at that nonce. */
  ghost predicate MinedFromPool(s: State, n: nat)
    requires n in s.mined
  {
    s.mined[n].tx.nonce == n && exists i :: i in s.sent && s.sent[i].tx == s.mined[n].tx
  }

  lemma {:induction false} MinedUnderOwnNonce(cfg: Config, events: seq<Event>)
    requires AtMostOnce(events)
    ensures var s := Reached(cfg, events); forall n :: n in s.mined ==> MinedFromPool(s, n)
  {
    if events == [] {
    } else {
      var front := events[..|events| - 1];
      MinedUnderOwnNonce(cfg, front);
      Invariants(cfg, front);
      hide Core, Audited, Lineage, Batons, Step;
      OneStepMined(cfg, Reached(cfg, front), events[|events| - 1]);
    }
  }

  /** No step takes a broadcast back, and only mining adds to the chain, out of what was broadcast. */
  lemma OneStepMined(cfg: Config, s: State, e: Event)
    requires Audited(s) && forall n :: n in s.mined ==> MinedFromPool(s, n)
    ensures var s' := Step(cfg, s, e); forall n :: n in s'.mined ==> MinedFromPool(s', n)
  {
    hide Audited, StepSubmit, StepCheck, MinedFromPool;
    var s' := Step(cfg, s, e);
    match e {
      case Advance(id, env) =>
        if id in s.procs {
          ProcAuditAt(s, id);
          match s.procs[id] {
            case Submit(h, signature, pc) => SubmitMinesNothing(s, id, h, signature, pc, env);
            case Check(job, pc) => CheckMinesNothing(cfg, s, id, job, pc, env);
            case Done(_) =>
          }
        }
      case _ =>
    }
    forall n | n in s'.mined ensures MinedFromPool(s', n) {
      if n in s.mined && s'.mined[n] == s.mined[n] {
        StaysInPool(s, s', n);
      } else {
        FreshlyMined(s', e.id, n);
      }
    }
  }

  lemma FreshlyMined(s: State, i: Id, n: nat)
    requires i in s.sent && n in s.mined && s.mined[n].tx == s.sent[i].tx && s.sent[i].tx.nonce == n
    ensures MinedFromPool(s, n)
  {
  }

  lemma StaysInPool(s: State, s': State, n: nat)
    requires n in s.mined && MinedFromPool(s, n) && GrowsChain(s.sent, s'.sent)
    requires n in s'.mined && s'.mined[n] == s.mined[n]
    ensures MinedFromPool(s', n)
  {
  }

  lemma SubmitMinesNothing(s: State, id: Id, h: OpHash, signature: Bytes, pc: SubmitPc, env: Env)
    requires id in s.procs && s.procs[id] == Submit(h, signature, pc) && ProcAudit(s, id)
    ensures var s' := StepSubmit(s, id, h, signature, pc, env); s'.mined == s.mined && GrowsChain(s.sent, s'.sent)
  {
    if !pc.Enqueueing? {
      SubmitShape(s, id, h, signature, pc, env);
      hide StepSubmit;
    }
  }

  lemma CheckMinesNothing(cfg: Config, s: State, id: Id, job: Job, pc: CheckPc, env: Env)
    requires id in s.procs && s.procs[id] == Check(job, pc) && ProcAudit(s, id)
    ensures var s' := StepCheck(cfg, s, id, job, pc, env); s'.mined == s.mined && GrowsChain(s.sent, s'.sent)
  {
    if !pc.Reenqueueing? {
      CheckShape(cfg, s, id, job, pc, env);
      hide StepCheck;
    }
  }

  /** Nonce `n` was mined with a handleOps transaction of operation `h`. */
  ghost predicate MinedFor(s: State, h: OpHash, n: nat) {
    n in s.mined && exists i: Id :: WasSent(s.sent, h, s.mined[n].tx, i)
  }

  /** All submit broadcasts of the operation chose one relayer nonce; a sole submit trivially does. */
  ghost predicate SubmitsAgree(s: State, h: OpHash) {
    forall a, b :: FromCall(s.sent, h, a) && FromCall(s.sent, h, b) ==> s.sent[a].tx.nonce == s.sent[b].tx.nonce
  }

  /** A chain that mines one transaction per relayer nonce then mines at most one handleOps of the operation. */
  lemma AgreeingSubmitsMineOnce(cfg: Config, events: seq<Event>, h: OpHash, m: nat, n: nat)
    requires AtMostOnce(events) && SubmitsAgree(Reached(cfg, events), h)
    requires MinedFor(Reached(cfg, events), h, m) && MinedFor(Reached(cfg, events), h, n)
    ensures m == n
  {
    MinedUnderOwnNonce(cfg, events);
    OneNonceIffSubmitsAgree(cfg, events, h);
    hide Reached;
    var s := Reached(cfg, events);
    var i: Id :| WasSent(s.sent, h, s.mined[m].tx, i);
    var j: Id :| WasSent(s.sent, h, s.mined[n].tx, j);
    assert i in Broadcasts(s, h) && j in Broadcasts(s, h);
  }

  /** A receipt of a handleOps transaction of the operation says it succeeded. */
  ghost predicate SucceededFor(s: State, h: OpHash, n: nat) {
    MinedFor(s, h, n) && s.mined[n].receipt.success
  }

  /** A row failed as reverted while its submits agree on the nonce stays unsuccessful: nothing else of it is mined. */
  lemma RevertedNeverSucceeds(cfg: Config, events: seq<Event>, h: OpHash, n: nat)
    requires AtMostOnce(events) && SubmitsAgree(Reached(cfg, events), h) && h in Reached(cfg, events).rows
    requires Reached(cfg, events).rows[h].status == FAILED
    requires Reached(cfg, events).rows[h].failureReason == Some(TransactionReverted)
    ensures !SucceededFor(Reached(cfg, events), h, n)
  {
    var m := RevertedMined(cfg, events, h);
    hide Reached, MinedFor, SubmitsAgree, AtMostOnce;
    if MinedFor(Reached(cfg, events), h, n) {
      AgreeingSubmitsMineOnce(cfg, events, h, m, n);
    }
  }

  lemma RevertedMined(cfg: Config, events: seq<Event>, h: OpHash) returns (m: nat)
    requires AtMostOnce(events) && h in Reached(cfg, events).rows
    requires Reached(cfg, events).rows[h].status == FAILED
    requires Reached(cfg, events).rows[h].failureReason == Some(TransactionReverted)
    ensures MinedFor(Reached(cfg, events), h, m) && !Reached(cfg, events).mined[m].receipt.success
  {
    Invariants(cfg, events);
    hide Core, Audited, Lineage, Batons, Reached, MinedFor;
    m := RevertedReceipt(cfg, Reached(cfg, events), h);
  }

  /** The reverted receipt behind such a row is one of the operation's own broadcasts. */
  lemma RevertedReceipt(cfg: Config, s: State, h: OpHash) returns (m: nat)
    requires Core(cfg, s) && Lineage(cfg, s) && h in s.rows
    requires s.rows[h].status == FAILED && s.rows[h].failureReason == Some(TransactionReverted)
    ensures MinedFor(s, h, m) && !s.mined[m].receipt.success
  {
    hide Core, Lineage, Replaceable, Descends, StoredGas;
    CoreRowAt(cfg, s, h);
    LineageAt(cfg, s, 0, h);
    m := s.rows[h].submittedTxHash.value.tx.nonce;
  }

  /** The exact condition in all runs: one nonce for all broadcasts iff the submit broadcasts agree on it. */
  lemma OneNonceIffSubmitsAgree(cfg: Config, events: seq<Event>, h: OpHash)
    requires AtMostOnce(events)
    ensures var s := Reached(cfg, events);
            (forall i, j :: i in Broadcasts(s, h) && j in Broadcasts(s, h) ==> s.sent[i].tx.nonce == s.sent[j].tx.nonce)
            <==> SubmitsAgree(s, h)
  {
    hide BuildPackedUserOp, Reached;
    var s := Reached(cfg, events);
    assert forall a :: FromCall(s.sent, h, a) ==> a in Broadcasts(s, h);
    forall i | i in Broadcasts(s, h) ensures NonceOfSubmit(s, h, s.sent[i].tx.nonce) {
      var a, k, c := BroadcastProvenance(cfg, events, i);
      assert FromCall(s.sent, h, a);
    }
  }

  ghost predicate NonceOfSubmit(s: State, h: OpHash, n: nat) {
    exists a :: FromCall(s.sent, h, a) && s.sent[a].tx.nonce == n
  }

  /**
   * With one submit broadcast `a`, a submitted row stores that broadcast's nonce, and its fees bumped exactly
   * bumpCount times, within the two-sided bound the repeated rounding leaves.
   */
  lemma SoleSubmitStoredFees(cfg: Config, events: seq<Event>, h: OpHash, a: Id)
    requires AtMostOnce(events) && SoleSubmit(Reached(cfg, events), h)
    requires FromCall(Reached(cfg, events).sent, h, a) && h in Reached(cfg, events).rows
    requires Reached(cfg, events).rows[h].status != PENDING
    ensures var s := Reached(cfg, events);
            var row, tx, p := s.rows[h], s.sent[a].tx, cfg.bumpPercent;
            var n := row.bumpCount;
            var fee := BumpN(p, tx.maxFeePerGas, n);
            && row.relayerNonce == Some(tx.nonce)
            && row.maxFeePerGas == Some(Decimal(fee))
            && row.maxPriorityFeePerGas == Some(Decimal(BumpN(p, tx.maxPriorityFeePerGas, n)))
            && BumpBounds(p, tx.maxFeePerGas, n, fee)
            && BumpBounds(p, tx.maxPriorityFeePerGas, n, BumpN(p, tx.maxPriorityFeePerGas, n))
  {
    Invariants(cfg, events);
    hide Core, Audited, Lineage, Batons, Reached, BumpBounds, BumpN, Decimal, SoleSubmit;
    var s := Reached(cfg, events);
    StoredFees(cfg, s, h, a);
    BumpNBounds(cfg.bumpPercent, s.sent[a].tx.maxFeePerGas, s.rows[h].bumpCount);
    BumpNBounds(cfg.bumpPercent, s.sent[a].tx.maxPriorityFeePerGas, s.rows[h].bumpCount);
  }

  lemma StoredFees(cfg: Config, s: State, h: OpHash, a: Id)
    requires Core(cfg, s) && Audited(s) && Batons(cfg, s)
    requires SoleSubmit(s, h) && FromCall(s.sent, h, a) && h in s.rows && s.rows[h].status != PENDING
    ensures var row, tx, p := s.rows[h], s.sent[a].tx, cfg.bumpPercent;
            && row.relayerNonce == Some(tx.nonce)
            && row.maxFeePerGas == Some(Decimal(BumpN(p, tx.maxFeePerGas, row.bumpCount)))
            && row.maxPriorityFeePerGas == Some(Decimal(BumpN(p, tx.maxPriorityFeePerGas, row.bumpCount)))
  {
    hide Core, Audited, Batons, Replacement, Evidence, Decimal;
    SoleSubmitNeverTakenOver(cfg, s, h);
    BatonsAt(cfg, s, h);
    CoreRowAt(cfg, s, h);
    var row := s.rows[h];
    var b: Id :| Root(cfg, s.sent, h, row.submittedTxHash.value.tx, b, row.bumpCount);
    assert FromCall(s.sent, h, b);
  }
}
