/** Termination: however it is scheduled, a run takes boundedly many steps per submit call. */
module RelayerProgress {
  import opened Numbers
  import opened Schema
  import opened Packing
  import opened UserOpStateMachine
  import opened RelayerProtocol
  import opened RelayerInvariant
  import opened RelayerAudit
  import opened RelayerLineage
  import opened RelayerBaton
  import opened RelayerShapes
  import opened RelayerTheorems

  /** The stages of agents 0 to n, added up. */
  function Progress(procs: map<Id, Proc>, n: nat): nat {
    if n == 0 then 0 else Progress(procs, n - 1) + (if n - 1 in procs then Stage(procs[n - 1]) else 0)
  }

  lemma {:induction false} ProgressBound(procs: map<Id, Proc>, n: nat)
    ensures Progress(procs, n) <= STEPS * n
  {
    if n > 0 {
      ProgressBound(procs, n - 1);
    }
  }

  lemma {:induction false} ProgressMoves(procs: map<Id, Proc>, procs': map<Id, Proc>, n: nat, id: Id)
    requires id in procs && id in procs' && forall i :: i < n && i != id ==> (i in procs <==> i in procs')
    requires forall i :: i < n && i != id && i in procs ==> procs'[i] == procs[i]
    ensures Progress(procs', n) == Progress(procs, n) + if id < n then Stage(procs'[id]) - Stage(procs[id]) else 0
  {
    if n > 0 {
      ProgressMoves(procs, procs', n - 1, id);
    }
  }

  /** Agents between a successful mark and their `queue.add`. */
  ghost function Pending(s: State): set<Id> {
    set i | i in s.procs && AboutToEnqueue(s.procs[i])
  }

  /** The agent moved its operation's row to SUBMITTED. */
  ghost predicate Marked(s: State, i: Id) {
    && i in s.sent && s.sent[i].h in s.audit
    && var a := s.audit[s.sent[i].h]; i in a.firstBy || i in a.takenOverBy || i in a.bumpedBy
  }

  ghost function Markers(s: State): set<Id> {
    set i | i in s.sent && Marked(s, i)
  }

  /** Every agent is a submit call, or a job paid for by a mark that some agent made and used up. */
  ghost predicate Budgeted(s: State) {
    && (forall i :: i in s.procs ==> i < s.nextId)
    && s.nextId + |Pending(s)| <= |s.calls| + |Markers(s)|
  }

  // ----- what a step does to the books

  /** An agent moves without marking or enqueueing: it may drop out of the pending ones, but joins nobody. */
  lemma QuietBudget(s: State, s': State, id: Id)
    requires Budgeted(s) && id in s.procs && id in s'.procs && s'.procs == s.procs[id := s'.procs[id]]
    requires !AboutToEnqueue(s'.procs[id])
    requires s'.nextId == s.nextId && s'.calls == s.calls && Markers(s) <= Markers(s')
    ensures Budgeted(s')
  {
    hide Markers, AboutToEnqueue;
    SubsetSize(Markers(s), Markers(s'));
    assert Pending(s') <= Pending(s);
    SubsetSize(Pending(s'), Pending(s));
  }

  lemma MarkBudget(s: State, s': State, id: Id)
    requires Budgeted(s) && id in s.procs && id in s'.procs && s'.procs == s.procs[id := s'.procs[id]]
    requires !AboutToEnqueue(s.procs[id]) && id !in Markers(s) && Markers(s) + {id} <= Markers(s')
    requires s'.nextId == s.nextId && s'.calls == s.calls
    ensures Budgeted(s')
  {
    hide Markers, AboutToEnqueue;
    SubsetSize(Markers(s) + {id}, Markers(s'));
    assert Pending(s') <= Pending(s) + {id};
    SubsetSize(Pending(s'), Pending(s) + {id});
  }

  lemma EnqueueBudget(s: State, id: Id, job: Job)
    requires Budgeted(s) && id in s.procs && AboutToEnqueue(s.procs[id])
    ensures Budgeted(Enqueue(s, id, job))
  {
    hide Marked;
    var s' := Enqueue(s, id, job);
    assert Markers(s') == Markers(s) by { SameMarks(s, s'); }
    hide Markers;
    assert Pending(s') + {id} <= Pending(s) && id !in Pending(s');
    SubsetSize(Pending(s') + {id}, Pending(s));
  }

  lemma SameMarks(s: State, s': State)
    requires s'.sent == s.sent && s'.audit == s.audit
    ensures Markers(s') == Markers(s)
  {
    assert forall i :: Marked(s', i) <==> Marked(s, i);
  }

  lemma MarksStay(s: State, s': State)
    requires GrowsChain(s.sent, s'.sent) && EntriesGrow(s, s')
    ensures Markers(s) <= Markers(s')
  {
    forall i | i in Markers(s) ensures i in Markers(s') {
      assert Marked(s, i) && Marked(s', i);
    }
  }

  /** An agent about to mark has marked nothing yet. */
  lemma UnmarkedSubmit(s: State, id: Id, h: OpHash, signature: Bytes, tx: Tx)
    requires Audited(s) && id in s.procs && s.procs[id] == Submit(h, signature, MarkingSubmitted(tx)) && h in s.rows
    ensures id !in Markers(s)
  {
    hide Ledger;
    assert ProcAudit(s, id) && RowAudit(s, h);
  }

  lemma UnmarkedCheck(s: State, id: Id, job: Job, tx: Tx)
    requires Audited(s) && id in s.procs && s.procs[id] == Check(job, Remarking(tx)) && job.h in s.rows
    ensures id !in Markers(s)
  {
    hide Ledger;
    assert ProcAudit(s, id) && RowAudit(s, job.h);
  }

  lemma MarkSubmittedBudget(s: State, id: Id, h: OpHash, signature: Bytes, tx: Tx)
    requires Audited(s) && Budgeted(s) && id in s.procs && s.procs[id] == Submit(h, signature, MarkingSubmitted(tx))
    requires h in s.rows && h in s.audit
    ensures Budgeted(Put(Write(s, h, SubmittedRow(s.rows[h], tx, signature), SubmitAudit(s, id, h)), id,
                         Submit(h, signature, Enqueueing(tx))))
  {
    hide Audited, Budgeted, SubmittedRow;
    ProcAuditAt(s, id);
    UnmarkedSubmit(s, id, h, signature, tx);
    var s' := Put(Write(s, h, SubmittedRow(s.rows[h], tx, signature), SubmitAudit(s, id, h)), id,
                  Submit(h, signature, Enqueueing(tx)));
    MarksStay(s, s');
    assert Marked(s', id);
    MarkBudget(s, s', id);
  }

  lemma RemarkBudget(s: State, id: Id, job: Job, tx: Tx)
    requires Audited(s) && Budgeted(s) && id in s.procs && s.procs[id] == Check(job, Remarking(tx))
    requires job.h in s.rows && job.h in s.audit
    ensures Budgeted(Put(Write(s, job.h, ResubmittedRow(s.rows[job.h], tx), BumpAudit(s, id, job.h)), id,
                         Check(job, Reenqueueing(tx))))
  {
    hide Audited, Budgeted, ResubmittedRow;
    ProcAuditAt(s, id);
    UnmarkedCheck(s, id, job, tx);
    var s' := Put(Write(s, job.h, ResubmittedRow(s.rows[job.h], tx), BumpAudit(s, id, job.h)), id,
                  Check(job, Reenqueueing(tx)));
    MarksStay(s, s');
    assert Marked(s', id);
    MarkBudget(s, s', id);
  }

  // ----- every event keeps the books, and every effective step is progress

  lemma SubmitBudget(cfg: Config, s: State, id: Id, h: OpHash, signature: Bytes, pc: SubmitPc, env: Env)
    requires Core(cfg, s) && Audited(s) && Budgeted(s) && id in s.procs && s.procs[id] == Submit(h, signature, pc)
    ensures Budgeted(StepSubmit(s, id, h, signature, pc, env))
  {
    hide Core, Audited, Budgeted, BuildPackedUserOp, SubmittedRow, AboutToEnqueue;
    AuditHas(s, h);
    ProcAuditAt(s, id);
    var s' := StepSubmit(s, id, h, signature, pc, env);
    if pc.MarkingSubmitted? && CanMove(s.rows, h, SUBMITTABLE) {
      MarkSubmittedBudget(s, id, h, signature, pc.tx);
    } else if pc.Enqueueing? {
      IsAboutToEnqueue(s.procs[id]);
      EnqueueBudget(s, id, Job(h, TxHash(pc.tx)));
    } else {
      QuietSubmitBudget(s, id, h, signature, pc, env);
    }
  }

  lemma IsAboutToEnqueue(p: Proc)
    requires (p.Submit? && p.sub.Enqueueing?) || (p.Check? && p.chk.Reenqueueing?)
    ensures AboutToEnqueue(p)
  {
  }

  lemma QuietSubmitBudget(s: State, id: Id, h: OpHash, signature: Bytes, pc: SubmitPc, env: Env)
    requires Budgeted(s) && id in s.procs && s.procs[id] == Submit(h, signature, pc) && ProcAudit(s, id)
    requires !pc.Enqueueing? && (pc.MarkingSubmitted? ==> !CanMove(s.rows, h, SUBMITTABLE))
    ensures Budgeted(StepSubmit(s, id, h, signature, pc, env))
  {
    hide Budgeted, EntriesGrow;
    var s' := StepSubmit(s, id, h, signature, pc, env);
    SubmitShape(s, id, h, signature, pc, env);
    LoserStops(s, id, h, signature, pc, env);
    hide StepSubmit;
    MarksStay(s, s');
    QuietBudget(s, s', id);
  }

  /** An agent whose mark finds the row elsewhere stops. */
  lemma LoserStops(s: State, id: Id, h: OpHash, signature: Bytes, pc: SubmitPc, env: Env)
    requires pc.MarkingSubmitted? ==> !CanMove(s.rows, h, SUBMITTABLE)
    ensures pc.MarkingSubmitted? ==> StepSubmit(s, id, h, signature, pc, env) == Finish(s, id, LostSubmitRace)
  {
    hide Finish;
  }

  lemma LosingCheckStops(cfg: Config, s: State, id: Id, job: Job, pc: CheckPc, env: Env)
    requires pc.Remarking? ==> !CanMove(s.rows, job.h, SUBMITTABLE)
    ensures pc.Remarking? ==> StepCheck(cfg, s, id, job, pc, env) == Finish(s, id, LostResubmitRace)
  {
    hide Finish;
  }

  lemma CheckBudget(cfg: Config, s: State, id: Id, job: Job, pc: CheckPc, env: Env)
    requires Core(cfg, s) && Audited(s) && Budgeted(s) && id in s.procs && s.procs[id] == Check(job, pc)
    ensures Budgeted(StepCheck(cfg, s, id, job, pc, env))
  {
    hide Core, Audited, Budgeted, AboutToEnqueue, Replacement;
    AuditHas(s, job.h);
    ProcAuditAt(s, id);
    if pc.Remarking? && CanMove(s.rows, job.h, SUBMITTABLE) {
      RemarkBudget(s, id, job, pc.tx);
    } else if pc.Reenqueueing? {
      IsAboutToEnqueue(s.procs[id]);
      EnqueueBudget(s, id, Job(job.h, TxHash(pc.tx)));
    } else {
      CheckFacts(cfg, s, id, job, pc);
      QuietCheckBudget(cfg, s, id, job, pc, env);
    }
  }

  lemma QuietCheckBudget(cfg: Config, s: State, id: Id, job: Job, pc: CheckPc, env: Env)
    requires Budgeted(s) && id in s.procs && s.procs[id] == Check(job, pc) && ProcAudit(s, id)
    requires !pc.Reenqueueing? && (pc.Remarking? ==> !CanMove(s.rows, job.h, SUBMITTABLE))
    ensures Budgeted(StepCheck(cfg, s, id, job, pc, env))
  {
    hide Budgeted, EntriesGrow;
    var s' := StepCheck(cfg, s, id, job, pc, env);
    CheckShape(cfg, s, id, job, pc, env);
    LosingCheckStops(cfg, s, id, job, pc, env);
    hide StepCheck;
    MarksStay(s, s');
    QuietBudget(s, s', id);
  }

  lemma StepKeepsBudget(cfg: Config, s: State, e: Event)
    requires Core(cfg, s) && Audited(s) && Budgeted(s) && !e.Redeliver?
    ensures Budgeted(Step(cfg, s, e))
  {
    hide Core, Audited, Budgeted, StepSubmit, StepCheck;
    var s' := Step(cfg, s, e);
    match e
    case Create(h, op) =>
      AuditHas(s, h);
      MarksStay(s, s');
      SameAgents(s, s');
    case Call(h, signature) => CallBudget(cfg, s, h, signature);
    case Advance(id, env) =>
      if id in s.procs {
        match s.procs[id]
        case Submit(h, signature, pc) => SubmitBudget(cfg, s, id, h, signature, pc, env);
        case Check(job, pc) => CheckBudget(cfg, s, id, job, pc, env);
        case Done(_) =>
      }
    case Crash(id) =>
      if id in s.procs && !s.procs[id].Done? {
        MarksStay(s, s');
        QuietBudget(s, s', id);
      }
    case Mine(id, receipt) =>
      MarksStay(s, s');
      SameAgents(s, s');
  }

  lemma SameAgents(s: State, s': State)
    requires Budgeted(s) && s'.procs == s.procs && s'.nextId == s.nextId && s'.calls == s.calls
    requires Markers(s) <= Markers(s')
    ensures Budgeted(s')
  {
    hide Markers;
    assert Pending(s') == Pending(s);
    SubsetSize(Markers(s), Markers(s'));
  }

  lemma CallBudget(cfg: Config, s: State, h: OpHash, signature: Bytes)
    requires Audited(s) && Budgeted(s)
    ensures Budgeted(Step(cfg, s, Call(h, signature)))
  {
    FreshCallee(s);
    hide Audited, Budgeted, Step, StepSubmit, StepCheck;
    var s' := Step(cfg, s, Call(h, signature));
    CallIs(cfg, s, h, signature);
    SameMarks(s, s');
    SpawnBudget(s, s', h, signature);
  }

  lemma CallIs(cfg: Config, s: State, h: OpHash, signature: Bytes)
    ensures Step(cfg, s, Call(h, signature))
         == s.(procs := s.procs[s.nextId := Submit(h, signature, Reading)], nextId := s.nextId + 1,
               calls := s.calls[s.nextId := h])
  {
  }

  lemma FreshCallee(s: State)
    requires Audited(s)
    ensures s.nextId !in s.calls && s.nextId !in s.procs
  {
  }

  lemma SpawnBudget(s: State, s': State, h: OpHash, signature: Bytes)
    requires Budgeted(s) && s.nextId !in s.calls && s.nextId !in s.procs && Markers(s') == Markers(s)
    requires s'.procs == s.procs[s.nextId := Submit(h, signature, Reading)] && s'.nextId == s.nextId + 1
    requires s'.calls == s.calls[s.nextId := h]
    ensures Budgeted(s')
  {
    hide Markers;
    assert Pending(s') == Pending(s);
  }

  lemma {:induction false} RunKeepsBudget(cfg: Config, events: seq<Event>)
    requires AtMostOnce(events)
    ensures Budgeted(Reached(cfg, events))
  {
    if events == [] {
      assert Pending(Init) == {};
    } else {
      var front := events[..|events| - 1];
      RunKeepsBudget(cfg, front);
      Invariants(cfg, front);
      hide Core, Audited, Lineage, Batons, Budgeted, Step;
      StepKeepsBudget(cfg, Reached(cfg, front), events[|events| - 1]);
    }
  }

  // ----- how many agents there can be

  lemma {:induction false} ValuesSize(m: map<Id, OpHash>)
    ensures |m.Values| <= |m|
    decreases |m|
  {
    if m.Keys == {} {
      assert m.Values == {};
    } else {
      var k :| k in m;
      var rest := m - {k};
      ValuesSize(rest);
      assert m.Values <= rest.Values + {m[k]} by {
        forall v | v in m.Values ensures v in rest.Values + {m[k]} {
          var i :| i in m && m[i] == v;
          assert i == k || (i in rest && rest[i] == v);
        }
      }
      SubsetSizeOf(m.Values, rest.Values + {m[k]});
    }
  }

  lemma SubsetSizeOf(a: set<OpHash>, b: set<OpHash>)
    requires a <= b
    ensures |a| <= |b|
  {
    assert b == a + (b - a);
  }

  /** Checks that bumped one of the operations `hs`. */
  ghost function Bumpers(s: State, hs: set<OpHash>): set<Id> {
    set i | i in s.sent && s.sent[i].h in hs && s.sent[i].h in s.audit && i in s.audit[s.sent[i].h].bumpedBy
  }

  lemma {:induction false} BumpersSize(cfg: Config, s: State, hs: set<OpHash>)
    requires Core(cfg, s) && Audited(s)
    ensures |Bumpers(s, hs)| <= cfg.maxAttempts * |hs|
    decreases |hs|
  {
    hide Core, Audited;
    if hs == {} {
      assert Bumpers(s, hs) == {};
    } else {
      var h :| h in hs;
      var rest := hs - {h};
      BumpersSize(cfg, s, rest);
      BumpersOfOne(cfg, s, h);
      assert Bumpers(s, hs) == Bumpers(s, rest) + Bumpers(s, {h});
      assert |hs| == |rest| + 1;
      assert cfg.maxAttempts * |hs| == cfg.maxAttempts * |rest| + cfg.maxAttempts;
    }
  }

  lemma BumpersOfOne(cfg: Config, s: State, h: OpHash)
    requires Core(cfg, s) && Audited(s)
    ensures |Bumpers(s, {h})| <= cfg.maxAttempts
  {
    hide Core, Audited;
    AuditHas(s, h);
    if h in s.rows {
      LedgerAt(cfg, s, h);
      SubsetSize(Bumpers(s, {h}), s.audit[h].bumpedBy);
    } else {
      assert Bumpers(s, {h}) == {};
    }
  }

  /** A mark is a submit call's own, or a bump of an operation some call submitted. */
  lemma MarkersSplit(cfg: Config, s: State)
    requires Core(cfg, s) && Audited(s)
    ensures Markers(s) <= s.calls.Keys + Bumpers(s, s.calls.Values)
  {
    hide Core, Audited, Ledger;
    forall i | i in Markers(s) ensures i in s.calls.Keys + Bumpers(s, s.calls.Values) {
      var h := s.sent[i].h;
      AuditHas(s, h);
      RowAuditAt(s, i, h);
      if i in s.audit[h].bumpedBy {
        CalledBefore(cfg, s, h);
      }
    }
  }

  lemma RowAuditAt(s: State, i: Id, h: OpHash)
    requires Audited(s) && h in s.rows && i in s.sent
    ensures RowAudit(s, h) && SentAudit(s, i)
  {
  }

  lemma CalledBefore(cfg: Config, s: State, h: OpHash)
    requires Core(cfg, s) && Audited(s) && h in s.rows && h in s.audit && s.audit[h].bumpedBy != {}
    ensures h in s.calls.Values
  {
    hide Core, Audited;
    LedgerAt(cfg, s, h);
    BroadcastsSplit(s, h);
    var a := s.audit[h];
    assert |a.bumpedBy| > 0;
    assert |a.firstBy| == 1;
    var i :| i in a.firstBy;
    assert i in Calls(s, h);
    assert i in s.calls && s.calls[i] == h;
  }

  lemma AgentsBound(cfg: Config, s: State)
    requires Core(cfg, s) && Audited(s) && Budgeted(s)
    ensures s.nextId <= (cfg.maxAttempts + 2) * |s.calls|
  {
    hide Core, Audited, Pending, Markers, Bumpers;
    var n, hs := |s.calls|, s.calls.Values;
    MarkersSplit(cfg, s);
    SubsetSize(Markers(s), s.calls.Keys + Bumpers(s, hs));
    assert |s.calls.Keys| == n;
    BumpersSize(cfg, s, hs);
    ValuesSize(s.calls);
    Times(cfg.maxAttempts, |hs|, n);
  }

  lemma Times(k: nat, m: nat, n: nat)
    requires m <= n
    ensures k * m <= k * n && (k + 2) * n == k * n + n + n
  {
    assert k * n == k * m + k * (n - m);
  }

  // ----- the bound

  /** Events that move an agent: not crashes, calls or blocks, and not steps of agents that are done. */
  ghost function EffectiveSteps(cfg: Config, events: seq<Event>): nat {
    if events == [] then 0
    else
      var front, e := events[..|events| - 1], events[|events| - 1];
      EffectiveSteps(cfg, front) + Flag(e.Advance? && Step(cfg, Reached(cfg, front), e) != Reached(cfg, front))
  }

  /** The agent got further, nobody else moved, and whoever is new has just started. */
  ghost predicate Advances(s: State, s': State, id: Id) {
    && id in s.procs && id in s'.procs && Stage(s'.procs[id]) > Stage(s.procs[id]) && s.nextId <= s'.nextId
    && (forall i :: i < s.nextId && i != id ==> (i in s.procs <==> i in s'.procs))
    && (forall i :: i < s.nextId && i != id && i in s.procs && i in s'.procs ==> s'.procs[i] == s.procs[i])
  }

  lemma SubmitAdvances(s: State, id: Id, h: OpHash, signature: Bytes, pc: SubmitPc, env: Env)
    requires id in s.procs && s.procs[id] == Submit(h, signature, pc) && id < s.nextId
    ensures Advances(s, StepSubmit(s, id, h, signature, pc, env), id)
  {
    if !pc.Enqueueing? {
      SubmitShape(s, id, h, signature, pc, env);
      hide StepSubmit;
    }
  }

  lemma CheckAdvances(cfg: Config, s: State, id: Id, job: Job, pc: CheckPc, env: Env)
    requires id in s.procs && s.procs[id] == Check(job, pc) && id < s.nextId
    ensures Advances(s, StepCheck(cfg, s, id, job, pc, env), id)
  {
    if !pc.Reenqueueing? {
      CheckShape(cfg, s, id, job, pc, env);
      hide StepCheck;
    }
  }

  lemma ProgressGrows(s: State, s': State, id: Id)
    requires Advances(s, s', id) && id < s.nextId
    ensures Progress(s'.procs, s'.nextId) > Progress(s.procs, s.nextId)
  {
    ProgressMoves(s.procs, s'.procs, s.nextId, id);
    ProgressExtends(s'.procs, s.nextId, s'.nextId);
  }

  lemma {:induction false} ProgressExtends(procs: map<Id, Proc>, m: nat, n: nat)
    requires m <= n
    ensures Progress(procs, m) <= Progress(procs, n)
  {
    if m < n {
      ProgressExtends(procs, m, n - 1);
    }
  }

  lemma {:induction false} ProgressSame(procs: map<Id, Proc>, procs': map<Id, Proc>, n: nat)
    requires forall i :: i < n ==> (i in procs <==> i in procs') && (i in procs ==> procs'[i] == procs[i])
    ensures Progress(procs', n) == Progress(procs, n)
  {
    if n > 0 {
      ProgressSame(procs, procs', n - 1);
    }
  }

  lemma StageBelow(p: Proc)
    ensures Stage(p) <= Stage(Done(Crashed))
  {
  }

  lemma AgentAdvances(cfg: Config, s: State, id: Id, env: Env)
    requires id in s.procs && id < s.nextId && !s.procs[id].Done?
    ensures Advances(s, Step(cfg, s, Advance(id, env)), id)
  {
    hide StepSubmit, StepCheck, Advances;
    match s.procs[id]
    case Submit(h, signature, pc) => SubmitAdvances(s, id, h, signature, pc, env);
    case Check(job, pc) => CheckAdvances(cfg, s, id, job, pc, env);
  }

  /** No event undoes progress, and an effective step adds to it. */
  lemma StepProgresses(cfg: Config, s: State, e: Event)
    requires Core(cfg, s) && !e.Redeliver?
    ensures var s' := Step(cfg, s, e);
            Progress(s'.procs, s'.nextId) >= Progress(s.procs, s.nextId) + Flag(e.Advance? && s' != s)
  {
    assert forall i :: i in s.procs ==> i < s.nextId;
    hide Core, StepSubmit, StepCheck, Advances, Progress, Stage;
    var s' := Step(cfg, s, e);
    match e
    case Create(h, op) =>
    case Call(h, signature) =>
      ProgressSame(s.procs, s'.procs, s.nextId);
      ProgressExtends(s'.procs, s.nextId, s'.nextId);
    case Advance(id, env) =>
      if id in s.procs && !s.procs[id].Done? {
        AgentAdvances(cfg, s, id, env);
        ProgressGrows(s, s', id);
      }
    case Crash(id) =>
      if id in s.procs && !s.procs[id].Done? {
        StageBelow(s.procs[id]);
        ProgressMoves(s.procs, s'.procs, s.nextId, id);
      }
    case Mine(id, receipt) =>
  }

  lemma {:induction false} StepsWithinProgress(cfg: Config, events: seq<Event>)
    requires AtMostOnce(events)
    ensures var s := Reached(cfg, events); EffectiveSteps(cfg, events) <= Progress(s.procs, s.nextId)
  {
    if events == [] {
    } else {
      var front := events[..|events| - 1];
      StepsWithinProgress(cfg, front);
      Invariants(cfg, front);
      hide Core, Audited, Lineage, Batons, Step, Progress;
      StepProgresses(cfg, Reached(cfg, front), events[|events| - 1]);
    }
  }

  /**
   * Termination: with n submit calls in all, over whatever operations, no run takes more than 7 (MAX + 2) n
   * effective steps, and no more than (MAX + 2) n agents ever exist. Crashes and delays only make it fewer.
   */
  lemma EveryRunIsFinite(cfg: Config, events: seq<Event>)
    requires AtMostOnce(events)
    ensures var n := |Reached(cfg, events).calls|;
            && Reached(cfg, events).nextId <= (cfg.maxAttempts + 2) * n
            && EffectiveSteps(cfg, events) <= STEPS * ((cfg.maxAttempts + 2) * n)
  {
    Invariants(cfg, events);
    RunKeepsBudget(cfg, events);
    StepsWithinProgress(cfg, events);
    hide Core, Audited, Lineage, Batons, Budgeted, Reached, Progress, EffectiveSteps;
    var s := Reached(cfg, events);
    AgentsBound(cfg, s);
    ProgressBound(s.procs, s.nextId);
  }
}
