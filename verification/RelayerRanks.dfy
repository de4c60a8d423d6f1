/**
 * One submit broadcast: the agents' order numbers the operation's broadcasts 0, 1, 2, ... and the k-th is the
 * submitted transaction bumped exactly k times.
 */
module RelayerRanks {
  import opened Numbers
  import opened Schema
  import opened Packing
  import opened GasBump
  import opened UserOpStateMachine
  import opened RelayerProtocol
  import opened RelayerInvariant
  import opened RelayerAudit
  import opened RelayerLineage
  import opened RelayerBaton
  import opened RelayerShapes
  import opened RelayerTheorems

  ghost function Earlier(s: State, h: OpHash, i: Id): set<Id> {
    set j | j in Broadcasts(s, h) && j < i
  }

  /** How many broadcasts of the operation were made by older agents. */
  ghost function Rank(s: State, h: OpHash, i: Id): nat {
    |Earlier(s, h, i)|
  }

  /** A check that may still broadcast. */
  ghost predicate Awaiting(s: State, i: Id, h: OpHash) {
    && i in s.procs && s.procs[i].Check? && s.procs[i].job.h == h
    && (Early(s.procs[i].chk) || s.procs[i].chk.Rebroadcasting?)
  }

  ghost predicate HasRank(cfg: Config, s: State, h: OpHash, i: Id)
    requires i in s.sent
  {
    exists a: Id :: Root(cfg, s.sent, h, s.sent[i].tx, a, Rank(s, h, i))
  }

  ghost predicate Ranked(cfg: Config, s: State, h: OpHash) {
    SoleSubmit(s, h) ==>
      && (forall i: Id, j: Id :: Awaiting(s, i, h) && j in Broadcasts(s, h) ==> j < i)
      && (forall i :: i in Broadcasts(s, h) ==> HasRank(cfg, s, h, i))
  }

  ghost predicate AllRanked(cfg: Config, s: State) {
    forall h :: Ranked(cfg, s, h)
  }

  /** Nothing of the operation was broadcast and no new check of it waits. */
  lemma RankedFrame(cfg: Config, s: State, s': State, h: OpHash)
    requires Ranked(cfg, s, h) && GrowsChain(s.sent, s'.sent)
    requires forall i :: i in s'.sent && i !in s.sent ==> s'.sent[i].h != h
    requires forall i: Id, j: Id :: Awaiting(s', i, h) && j in Broadcasts(s, h) ==> Awaiting(s, i, h) || j < i
    ensures Ranked(cfg, s', h)
  {
    assert Broadcasts(s', h) == Broadcasts(s, h);
    assert forall a :: FromCall(s.sent, h, a) <==> FromCall(s'.sent, h, a);
    if SoleSubmit(s', h) {
      assert SoleSubmit(s, h);
      forall i | i in Broadcasts(s', h) ensures HasRank(cfg, s', h, i) {
        assert HasRank(cfg, s, h, i);
        var a: Id :| Root(cfg, s.sent, h, s.sent[i].tx, a, Rank(s, h, i));
        assert Earlier(s', h, i) == Earlier(s, h, i);
        assert Root(cfg, s'.sent, h, s'.sent[i].tx, a, Rank(s', h, i));
      }
    }
  }

  lemma KeepsRanks(cfg: Config, s: State, s': State)
    requires AllRanked(cfg, s) && s'.sent == s.sent
    requires forall i: Id, h :: Awaiting(s', i, h) ==> Awaiting(s, i, h) || (forall j: Id :: j in s.sent ==> j < i)
    ensures AllRanked(cfg, s')
  {
    hide Ranked, Awaiting;
    forall h ensures Ranked(cfg, s', h) {
      RankedFrame(cfg, s, s', h);
    }
  }

  /** The newcomer follows every broadcast so far: it gets the next number, the others keep theirs. */
  lemma NewestRanked(cfg: Config, s: State, s': State, id: Id, h: OpHash, a: Id)
    requires id !in s.sent && id in s'.sent && s'.sent == s.sent[id := s'.sent[id]] && s'.sent[id].h == h
    requires SoleSubmit(s, h) && Ranked(cfg, s, h)
    requires forall j :: j in Broadcasts(s, h) ==> j < id
    requires forall i :: !Awaiting(s', i, h)
    requires Root(cfg, s'.sent, h, s'.sent[id].tx, a, |Broadcasts(s, h)|)
    ensures Ranked(cfg, s', h)
  {
    var b, b' := Broadcasts(s, h), Broadcasts(s', h);
    assert b' == b + {id};
    forall i | i in b' ensures HasRank(cfg, s', h, i) {
      if i == id {
        assert Earlier(s', h, id) == b;
        assert Root(cfg, s'.sent, h, s'.sent[id].tx, a, Rank(s', h, id));
      } else {
        assert HasRank(cfg, s, h, i);
        var r: Id :| Root(cfg, s.sent, h, s.sent[i].tx, r, Rank(s, h, i));
        assert Earlier(s', h, i) == Earlier(s, h, i);
        assert Root(cfg, s'.sent, h, s'.sent[i].tx, r, Rank(s', h, i));
      }
    }
  }

  // ----- a submit broadcasts

  /** The only submit broadcast comes before everything else that happens to the row. */
  lemma FirstBroadcast(cfg: Config, s: State, s': State, id: Id, h: OpHash)
    requires Core(cfg, s) && Audited(s) && id !in s.sent && h in s.rows
    requires id in s'.sent && s'.sent == s.sent[id := s'.sent[id]] && FromCall(s'.sent, h, id) && SoleSubmit(s', h)
    ensures s.rows[h].status == PENDING && Broadcasts(s, h) == {}
  {
    hide Core, Audited, Broadcasts;
    LedgerAt(cfg, s, h);
    BroadcastsSplit(s, h);
    var a := s.audit[h];
    NoOtherSubmit(s, s', id, h);
    assert a.firstBy <= SubmitBroadcasts(s, h) && a.takenOverBy <= SubmitBroadcasts(s, h);
    assert a.firstBy == {} && a.takenOverBy == {};
    assert |a.stuckBy| == 0;
    EmptyWhenNone(a.stuckBy);
  }

  lemma NoOtherSubmit(s: State, s': State, id: Id, h: OpHash)
    requires id !in s.sent && id in s'.sent && s'.sent == s.sent[id := s'.sent[id]]
    requires FromCall(s'.sent, h, id) && SoleSubmit(s', h)
    ensures SubmitBroadcasts(s, h) == {}
  {
    assert forall j :: FromCall(s.sent, h, j) ==> FromCall(s'.sent, h, j);
  }

  lemma EmptyWhenNone(ids: set<Id>)
    requires |ids| == 0
    ensures ids == {}
  {
  }

  lemma SubmitBroadcastRanked(cfg: Config, s: State, id: Id, h: OpHash, signature: Bytes, tx: Tx)
    requires Core(cfg, s) && Audited(s) && AllRanked(cfg, s) && id in s.procs && id !in s.sent
    requires s.procs[id] == Submit(h, signature, Broadcasting(tx)) && h in s.rows
    ensures AllRanked(cfg,
                      Put(Broadcast(s, id, Sent(h, FromSubmit, tx)), id, Submit(h, signature, MarkingSubmitted(tx))))
  {
    hide Core, Audited, Ranked;
    var s' := Put(Broadcast(s, id, Sent(h, FromSubmit, tx)), id, Submit(h, signature, MarkingSubmitted(tx)));
    forall g ensures Ranked(cfg, s', g) {
      if g != h {
        RankedFrame(cfg, s, s', g);
      } else {
        FirstIsRanked(cfg, s, s', id, h, tx);
      }
    }
  }

  lemma FirstIsRanked(cfg: Config, s: State, s': State, id: Id, h: OpHash, tx: Tx)
    requires Core(cfg, s) && Audited(s) && Ranked(cfg, s, h) && id in s.procs && id !in s.sent && h in s.rows
    requires s'.sent == s.sent[id := Sent(h, FromSubmit, tx)]
    requires forall i :: Awaiting(s', i, h) ==> Awaiting(s, i, h)
    ensures Ranked(cfg, s', h)
  {
    hide Core, Audited, Broadcasts, Root, Ranked, Awaiting;
    if SoleSubmit(s', h) {
      assert FromCall(s'.sent, h, id);
      FirstBroadcast(cfg, s, s', id, h);
      forall i ensures !Awaiting(s', i, h) {
        if Awaiting(s', i, h) { AwaitingNotPending(cfg, s, i, h); }
      }
      OwnRoot(cfg, s', h, id);
      SoleBefore(s, s', h, id);
      NewestRanked(cfg, s, s', id, h, id);
    } else {
      NotSole(cfg, s', h);
    }
  }

  lemma OwnRoot(cfg: Config, s: State, h: OpHash, id: Id)
    requires FromCall(s.sent, h, id)
    ensures Root(cfg, s.sent, h, s.sent[id].tx, id, 0)
  {
  }

  lemma NotSole(cfg: Config, s: State, h: OpHash)
    requires !SoleSubmit(s, h)
    ensures Ranked(cfg, s, h)
  {
  }

  lemma SoleBefore(s: State, s': State, h: OpHash, id: Id)
    requires SoleSubmit(s', h) && id !in s.sent && id in s'.sent && s'.sent == s.sent[id := s'.sent[id]]
    ensures SoleSubmit(s, h)
  {
    assert forall a :: FromCall(s.sent, h, a) ==> FromCall(s'.sent, h, a);
  }

  lemma AwaitingNotPending(cfg: Config, s: State, i: Id, h: OpHash)
    requires Core(cfg, s) && Awaiting(s, i, h)
    ensures h in s.rows && s.rows[h].status != PENDING
    ensures Early(s.procs[i].chk) ==> s.rows[h].status == SUBMITTED
  {
    hide Core;
    CheckFacts(cfg, s, i, s.procs[i].job, s.procs[i].chk);
  }

  // ----- a check rebroadcasts

  /** While the one worker that marked the row STUCK has not broadcast, there are bumpCount + 1 broadcasts. */
  lemma BroadcastsBefore(cfg: Config, s: State, id: Id, h: OpHash)
    requires Core(cfg, s) && Audited(s) && h in s.rows && h in s.audit && SoleSubmit(s, h)
    requires id !in s.sent && id in s.audit[h].stuckBy && s.rows[h].status == STUCK
    ensures |Broadcasts(s, h)| == s.rows[h].bumpCount + 1
  {
    hide Core, Audited, Broadcasts, SubmitBroadcasts;
    LedgerAt(cfg, s, h);
    BroadcastsSplit(s, h);
    SoleSubmitNeverTakenOver(cfg, s, h);
    var a, b, subs := s.audit[h], Broadcasts(s, h), SubmitBroadcasts(s, h);
    SubmitsAtMostOne(s, h);
    NotBroadcast(s, h, id);
    var others := a.stuckBy - {id};
    assert |a.stuckBy| == |others| + 1 by { assert a.stuckBy == others + {id}; }
    SubsetSize(b, subs + others);
    MarkersBroadcast(s, h);
    assert |a.firstBy + a.bumpedBy| == |a.firstBy| + |a.bumpedBy|;
    SubsetSize(a.firstBy + a.bumpedBy, b);
  }

  lemma NotBroadcast(s: State, h: OpHash, id: Id)
    requires id !in s.sent
    ensures id !in Broadcasts(s, h)
  {
  }

  lemma SubmitsAtMostOne(s: State, h: OpHash)
    requires SoleSubmit(s, h)
    ensures |SubmitBroadcasts(s, h)| <= 1
  {
    AtMostOneElement(SubmitBroadcasts(s, h));
  }

  /** Whoever won the PENDING row or bumped it had broadcast, as a submit and as a check. */
  lemma MarkersBroadcast(s: State, h: OpHash)
    requires Audited(s) && h in s.rows && h in s.audit
    ensures s.audit[h].firstBy + s.audit[h].bumpedBy <= Broadcasts(s, h) && s.audit[h].firstBy !! s.audit[h].bumpedBy
  {
    hide Ledger;
    assert RowAudit(s, h);
  }

  lemma RebroadcastRanked(cfg: Config, s: State, id: Id, job: Job, tx: Tx)
    requires Core(cfg, s) && Audited(s) && Batons(cfg, s) && AllRanked(cfg, s)
    requires id in s.procs && s.procs[id] == Check(job, Rebroadcasting(tx))
    ensures AllRanked(cfg, Put(Broadcast(s, id, Sent(job.h, Replaces(job.txHash), tx)), id, Check(job, Remarking(tx))))
  {
    hide Core, Audited, Batons, Ranked;
    ProcAuditAt(s, id);
    var s' := Put(Broadcast(s, id, Sent(job.h, Replaces(job.txHash), tx)), id, Check(job, Remarking(tx)));
    forall g ensures Ranked(cfg, s', g) {
      if g != job.h {
        RankedFrame(cfg, s, s', g);
      } else {
        NextIsRanked(cfg, s, s', id, job, tx);
      }
    }
  }

  lemma NextIsRanked(cfg: Config, s: State, s': State, id: Id, job: Job, tx: Tx)
    requires Core(cfg, s) && Audited(s) && Batons(cfg, s) && Ranked(cfg, s, job.h)
    requires id in s.procs && s.procs[id] == Check(job, Rebroadcasting(tx)) && id !in s.sent
    requires s'.sent == s.sent[id := Sent(job.h, Replaces(job.txHash), tx)]
    requires forall i :: Awaiting(s', i, job.h) ==> Awaiting(s, i, job.h) && i != id
    ensures Ranked(cfg, s', job.h)
  {
    hide Core, Audited, Batons, Broadcasts, Root, Ranked, Awaiting, SoleSubmit;
    var h := job.h;
    if SoleSubmit(s', h) {
      SoleBefore(s, s', h, id);
      var a := BatonTx(cfg, s, id, job, tx);
      BroadcastsBefore(cfg, s, id, h);
      forall i ensures !Awaiting(s', i, h) {
        if Awaiting(s', i, h) { BatonIsAlone(cfg, s, id, i, job, tx); }
      }
      RankedGives(cfg, s, id, h, job, tx);
      RootFrame(cfg, s.sent, s'.sent, h, tx, a, s.rows[h].bumpCount + 1);
      NewestRanked(cfg, s, s', id, h, a);
    } else {
      NotSole(cfg, s', h);
    }
  }

  lemma RankedGives(cfg: Config, s: State, id: Id, h: OpHash, job: Job, tx: Tx)
    requires Ranked(cfg, s, h) && SoleSubmit(s, h)
    requires id in s.procs && s.procs[id] == Check(job, Rebroadcasting(tx)) && job.h == h
    ensures forall j :: j in Broadcasts(s, h) ==> j < id
  {
    assert Awaiting(s, id, h);
  }

  lemma RootFrame(cfg: Config, sent: Chain, sent': Chain, h: OpHash, tx: Tx, a: Id, k: nat)
    requires Root(cfg, sent, h, tx, a, k) && GrowsChain(sent, sent')
    ensures Root(cfg, sent', h, tx, a, k)
  {
  }

  /** The baton's transaction is one bump past the stored one, which is bumpCount bumps past the submit's. */
  lemma BatonTx(cfg: Config, s: State, id: Id, job: Job, tx: Tx) returns (a: Id)
    requires Core(cfg, s) && Audited(s) && Batons(cfg, s) && SoleSubmit(s, job.h)
    requires id in s.procs && s.procs[id] == Check(job, Rebroadcasting(tx))
    ensures job.h in s.rows && job.h in s.audit && s.rows[job.h].status == STUCK && id in s.audit[job.h].stuckBy
    ensures Root(cfg, s.sent, job.h, tx, a, s.rows[job.h].bumpCount + 1)
  {
    hide Core, Audited, Batons, SoleSubmit, CarriesOp;
    CoreAt(cfg, s, id);
    ProcAuditAt(s, id);
    AuditHas(s, job.h);
    SoleSubmitNeverTakenOver(cfg, s, job.h);
    BatonsAt(cfg, s, job.h);
    assert Baton(s, id, job.h);
    a :| Root(cfg, s.sent, job.h, s.rows[job.h].submittedTxHash.value.tx, a, s.rows[job.h].bumpCount);
  }

  /** Nobody else waits while the row is STUCK. */
  lemma BatonIsAlone(cfg: Config, s: State, id: Id, i: Id, job: Job, tx: Tx)
    requires Core(cfg, s) && Audited(s) && Batons(cfg, s) && SoleSubmit(s, job.h)
    requires id in s.procs && s.procs[id] == Check(job, Rebroadcasting(tx))
    requires Awaiting(s, i, job.h)
    ensures i == id
  {
    hide Core, Audited, Batons, SoleSubmit, Root;
    AwaitingNotPending(cfg, s, i, job.h);
    SoleSubmitNeverTakenOver(cfg, s, job.h);
    BatonsAt(cfg, s, job.h);
    assert Baton(s, id, job.h);
    if s.procs[i].chk.Rebroadcasting? {
      assert Baton(s, i, job.h);
    }
  }

  // ----- every event

  /** An agent that moved onward and broadcast nothing is no closer to a broadcast. */
  lemma QuietRanked(cfg: Config, s: State, s': State, id: Id)
    requires AllRanked(cfg, s) && id in s.procs && Solo(s, s', id) && s'.sent == s.sent
    ensures AllRanked(cfg, s')
  {
    hide AllRanked;
    forall i, h | Awaiting(s', i, h) ensures Awaiting(s, i, h) {
      assert i == id || i in s.procs;
    }
    KeepsRanks(cfg, s, s');
  }

  /** A new agent is younger than every broadcast. */
  lemma SpawnRanked(cfg: Config, s: State, s': State)
    requires AllRanked(cfg, s) && Audited(s) && s'.sent == s.sent
    requires forall i :: i in s'.procs ==>
               i == s.nextId || s'.procs[i].Done? || (i in s.procs && s'.procs[i] == s.procs[i])
    ensures AllRanked(cfg, s')
  {
    SentAreOld(s);
    hide AllRanked, Audited;
    forall i, h | Awaiting(s', i, h) ensures Awaiting(s, i, h) || i == s.nextId {
    }
    KeepsRanks(cfg, s, s');
  }

  lemma SentAreOld(s: State)
    requires Audited(s)
    ensures forall j :: j in s.sent ==> j < s.nextId
  {
    assert forall j :: j in s.sent ==> SentAudit(s, j);
  }

  lemma SubmitKeepsRanks(cfg: Config, s: State, id: Id, h: OpHash, signature: Bytes, pc: SubmitPc, env: Env)
    requires Core(cfg, s) && Audited(s) && AllRanked(cfg, s) && id in s.procs && s.procs[id] == Submit(h, signature, pc)
    ensures AllRanked(cfg, StepSubmit(s, id, h, signature, pc, env))
  {
    hide Core, Audited, AllRanked, BuildPackedUserOp, SubmittedRow;
    if pc.Broadcasting? {
      CoreAt(cfg, s, id);
      ProcAuditAt(s, id);
      SubmitBroadcastRanked(cfg, s, id, h, signature, pc.tx);
    } else if pc.Enqueueing? {
      SpawnRanked(cfg, s, Enqueue(s, id, Job(h, TxHash(pc.tx))));
    } else {
      SubmitShape(s, id, h, signature, pc, env);
      hide StepSubmit, Solo;
      QuietRanked(cfg, s, StepSubmit(s, id, h, signature, pc, env), id);
    }
  }

  lemma CheckKeepsRanks(cfg: Config, s: State, id: Id, job: Job, pc: CheckPc, env: Env)
    requires Core(cfg, s) && Audited(s) && Batons(cfg, s) && AllRanked(cfg, s)
    requires id in s.procs && s.procs[id] == Check(job, pc)
    ensures AllRanked(cfg, StepCheck(cfg, s, id, job, pc, env))
  {
    hide Core, Audited, Batons, AllRanked, Awaiting;
    if pc.Rebroadcasting? {
      RebroadcastRanked(cfg, s, id, job, pc.tx);
    } else if pc.Reenqueueing? {
      SpawnRanked(cfg, s, Enqueue(s, id, Job(job.h, TxHash(pc.tx))));
    } else {
      CheckShape(cfg, s, id, job, pc, env);
      hide StepCheck, Solo;
      QuietRanked(cfg, s, StepCheck(cfg, s, id, job, pc, env), id);
    }
  }

  lemma StepKeepsRanks(cfg: Config, s: State, e: Event)
    requires Core(cfg, s) && Audited(s) && Batons(cfg, s) && AllRanked(cfg, s) && !e.Redeliver?
    ensures AllRanked(cfg, Step(cfg, s, e))
  {
    hide Core, Audited, Batons, AllRanked, StepSubmit, StepCheck;
    match e
    case Create(h, op) => KeepsRanks(cfg, s, Step(cfg, s, e));
    case Call(h, signature) => SpawnRanked(cfg, s, Step(cfg, s, e));
    case Advance(id, env) =>
      if id in s.procs {
        match s.procs[id]
        case Submit(h, signature, pc) => SubmitKeepsRanks(cfg, s, id, h, signature, pc, env);
        case Check(job, pc) => CheckKeepsRanks(cfg, s, id, job, pc, env);
        case Done(_) =>
      }
    case Crash(id) => if id in s.procs && !s.procs[id].Done? { QuietRanked(cfg, s, Step(cfg, s, e), id); }
    case Mine(id, receipt) => KeepsRanks(cfg, s, Step(cfg, s, e));
  }

  lemma {:induction false} RunKeepsRanks(cfg: Config, events: seq<Event>)
    requires AtMostOnce(events)
    ensures AllRanked(cfg, Reached(cfg, events))
  {
    if events == [] {
    } else {
      var front := events[..|events| - 1];
      RunKeepsRanks(cfg, front);
      Invariants(cfg, front);
      hide Core, Audited, Lineage, Batons, AllRanked, Step;
      StepKeepsRanks(cfg, Reached(cfg, front), events[|events| - 1]);
    }
  }

  // ----- the fee sequence

  /** Broadcast `i`, the k-th of its operation, is the submitted transaction `base` bumped exactly k times. */
  ghost predicate IsNumbered(cfg: Config, s: State, h: OpHash, base: Tx, i: Id) {
    && i in Broadcasts(s, h) && Rank(s, h, i) <= cfg.maxAttempts
    && s.sent[i].tx == base.(maxFeePerGas := BumpN(cfg.bumpPercent, base.maxFeePerGas, Rank(s, h, i)),
                             maxPriorityFeePerGas := BumpN(cfg.bumpPercent, base.maxPriorityFeePerGas, Rank(s, h, i)))
  }

  /** Later in the sequence: a higher number, no lower fee, and a higher one wherever a bump is worth a wei. */
  ghost predicate Outbids(cfg: Config, s: State, h: OpHash, base: Tx, i: Id, j: Id)
    requires i in s.sent && j in s.sent
  {
    var t, u, p := s.sent[i].tx, s.sent[j].tx, cfg.bumpPercent;
    && Rank(s, h, i) < Rank(s, h, j)
    && t.maxFeePerGas <= u.maxFeePerGas && t.maxPriorityFeePerGas <= u.maxPriorityFeePerGas
    && (base.maxFeePerGas * p >= 100 ==> t.maxFeePerGas < u.maxFeePerGas)
    && (base.maxPriorityFeePerGas * p >= 100 ==> t.maxPriorityFeePerGas < u.maxPriorityFeePerGas)
  }

  /**
   * With one submit broadcast `a`, however many calls were made: at most MAX + 1 broadcasts, numbered by their
   * agents' order, each the submitted transaction bumped exactly as often as its number says, each outbidding
   * all before it.
   */
  lemma SoleSubmitFeeSequence(cfg: Config, events: seq<Event>, h: OpHash, a: Id, i: Id, j: Id)
    requires AtMostOnce(events) && SoleSubmit(Reached(cfg, events), h) && FromCall(Reached(cfg, events).sent, h, a)
    requires i in Broadcasts(Reached(cfg, events), h) && j in Broadcasts(Reached(cfg, events), h)
    ensures var s := Reached(cfg, events);
            && |Broadcasts(s, h)| <= cfg.maxAttempts + 1
            && IsNumbered(cfg, s, h, s.sent[a].tx, i)
            && (i < j ==> Outbids(cfg, s, h, s.sent[a].tx, i, j))
  {
    Numbering(cfg, events, h, a, i);
    Numbering(cfg, events, h, a, j);
    hide Reached, IsNumbered, Outbids, Broadcasts, SoleSubmit;
    if i < j {
      Outbidding(cfg, Reached(cfg, events), h, Reached(cfg, events).sent[a].tx, i, j);
    }
  }

  lemma SoleSubmitCount(cfg: Config, s: State, h: OpHash)
    requires Core(cfg, s) && Audited(s) && SoleSubmit(s, h)
    ensures |Broadcasts(s, h)| <= cfg.maxAttempts + 1
  {
    hide Core, Audited, Broadcasts, SubmitBroadcasts;
    BroadcastsSplit(s, h);
    AuditHas(s, h);
    SubmitsAtMostOne(s, h);
    SubsetSize(Broadcasts(s, h), SubmitBroadcasts(s, h) + AuditOf(s, h).stuckBy);
    if h in s.rows {
      LedgerAt(cfg, s, h);
      SoleSubmitNeverTakenOver(cfg, s, h);
    }
  }

  lemma Numbering(cfg: Config, events: seq<Event>, h: OpHash, a: Id, i: Id)
    requires AtMostOnce(events) && SoleSubmit(Reached(cfg, events), h) && FromCall(Reached(cfg, events).sent, h, a)
    requires i in Broadcasts(Reached(cfg, events), h)
    ensures var s := Reached(cfg, events);
            |Broadcasts(s, h)| <= cfg.maxAttempts + 1 && IsNumbered(cfg, s, h, s.sent[a].tx, i)
  {
    Invariants(cfg, events);
    RunKeepsRanks(cfg, events);
    hide Core, Audited, Lineage, Batons, AllRanked, Reached, Broadcasts, SoleSubmit, IsNumbered;
    var s := Reached(cfg, events);
    SoleSubmitCount(cfg, s, h);
    SubmitIsBroadcast(s, h, a);
    SoleSubmitOneTransaction(cfg, events, h, i, a);
    NumberedBy(cfg, s, h, a, i);
  }

  lemma SubmitIsBroadcast(s: State, h: OpHash, a: Id)
    requires FromCall(s.sent, h, a)
    ensures a in Broadcasts(s, h)
  {
  }

  lemma NumberedBy(cfg: Config, s: State, h: OpHash, a: Id, i: Id)
    requires AllRanked(cfg, s) && SoleSubmit(s, h) && FromCall(s.sent, h, a) && i in Broadcasts(s, h)
    requires |Broadcasts(s, h)| <= cfg.maxAttempts + 1
    requires var t, u := s.sent[i].tx, s.sent[a].tx;
             t.(maxFeePerGas := u.maxFeePerGas, maxPriorityFeePerGas := u.maxPriorityFeePerGas) == u
    ensures IsNumbered(cfg, s, h, s.sent[a].tx, i)
  {
    RankBelow(s, h, i);
    assert Ranked(cfg, s, h) && HasRank(cfg, s, h, i);
    var r: Id :| Root(cfg, s.sent, h, s.sent[i].tx, r, Rank(s, h, i));
    assert FromCall(s.sent, h, r);
  }

  lemma RankBelow(s: State, h: OpHash, i: Id)
    requires i in Broadcasts(s, h)
    ensures Rank(s, h, i) < |Broadcasts(s, h)|
  {
    SubsetSize(Earlier(s, h, i) + {i}, Broadcasts(s, h));
  }

  lemma Outbidding(cfg: Config, s: State, h: OpHash, base: Tx, i: Id, j: Id)
    requires IsNumbered(cfg, s, h, base, i) && IsNumbered(cfg, s, h, base, j) && i < j
    ensures Outbids(cfg, s, h, base, i, j)
  {
    RanksGrow(s, h, i, j);
    hide Rank, BumpN;
    var p, k, n := cfg.bumpPercent, Rank(s, h, i), Rank(s, h, j);
    BumpNGrows(p, base.maxFeePerGas, k, n);
    BumpNGrows(p, base.maxPriorityFeePerGas, k, n);
  }

  lemma RanksGrow(s: State, h: OpHash, i: Id, j: Id)
    requires i in Broadcasts(s, h) && j in Broadcasts(s, h) && i < j
    ensures Rank(s, h, i) < Rank(s, h, j)
  {
    SubsetSize(Earlier(s, h, i) + {i}, Earlier(s, h, j));
  }
}
