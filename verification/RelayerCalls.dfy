/**
 * What a submit call does, whoever moves in between: where each submit broadcast comes from, and when there is
 * none. Stated over the events of a run and what they read.
 */
module RelayerCalls {
  import opened Wrappers
  import opened Numbers
  import opened Schema
  import opened Packing
  import opened UserOpStateMachine
  import opened RelayerProtocol
  import opened RelayerShapes
  import opened RelayerTheorems

  /** The event moves or kills agent `id`. */
  predicate OwnStep(e: Event, id: Id) {
    (e.Advance? || e.Crash?) && e.id == id
  }

  predicate Leaves(events: seq<Event>, id: Id) {
    forall i :: 0 <= i < |events| ==> !OwnStep(events[i], id)
  }

  /** Agents are numbered in order, and a submit call never turns into a check. */
  ghost predicate Numbered(s: State) {
    && (forall i :: i in s.procs ==> i < s.nextId && (s.procs[i].Check? ==> i !in s.calls))
    && (forall i :: i in s.sent ==> i < s.nextId && (s.sent[i].origin != FromSubmit ==> i !in s.calls))
    && (forall i :: i in s.calls ==> i < s.nextId)
  }

  /** One agent's step: it alone moves and broadcasts, and it may queue one new check. */
  ghost predicate Alone(s: State, s': State, id: Id)
    requires id in s.procs
  {
    && id in s'.procs && s'.calls == s.calls && s.nextId <= s'.nextId <= s.nextId + 1
    && (s'.procs[id].Done? || s'.procs[id].Submit? == s.procs[id].Submit?)
    && (forall i :: i != id && i != s.nextId ==> (i in s'.procs <==> i in s.procs))
    && (forall i :: i != id && i != s.nextId && i in s.procs ==> s'.procs[i] == s.procs[i])
    && (s.nextId in s'.procs && s.nextId != id ==> s'.nextId == s.nextId + 1 && s'.procs[s.nextId].Check?)
    && (forall i :: i != id ==> (i in s'.sent <==> i in s.sent))
    && (forall i :: i != id && i in s.sent ==> s'.sent[i] == s.sent[i])
    && (id in s'.sent ==> || (id in s.sent && s'.sent[id] == s.sent[id])
                          || (s'.sent[id].origin == FromSubmit <==> s.procs[id].Submit?))
  }

  lemma SoloIsAlone(s: State, s': State, id: Id, b: Option<Sent>)
    requires id in s.procs && s.nextId !in s.procs && Solo(s, s', id) && s'.sent == Extended(s.sent, id, b)
    requires b.Some? ==> (b.value.origin == FromSubmit <==> s.procs[id].Submit?)
    ensures Alone(s, s', id)
  {
  }

  lemma EnqueueIsAlone(s: State, id: Id, job: Job)
    requires id in s.procs && s.nextId !in s.procs
    ensures Alone(s, Enqueue(s, id, job), id)
  {
  }

  lemma AdvanceIsAlone(cfg: Config, s: State, id: Id, env: Env)
    requires id in s.procs && s.nextId !in s.procs
    ensures Alone(s, Step(cfg, s, Advance(id, env)), id)
  {
    hide StepSubmit, StepCheck, Solo, Alone, Enqueue, Extended;
    match s.procs[id]
    case Submit(h, signature, pc) =>
      if pc.Enqueueing? {
        SubmitQueues(s, id, h, signature, pc.tx, env);
      } else {
        SubmitShape(s, id, h, signature, pc, env);
        SoloIsAlone(s, StepSubmit(s, id, h, signature, pc, env), id, SubmitSends(h, pc));
      }
    case Check(job, pc) =>
      if pc.Reenqueueing? {
        CheckQueues(cfg, s, id, job, pc.tx, env);
      } else {
        CheckShape(cfg, s, id, job, pc, env);
        SoloIsAlone(s, StepCheck(cfg, s, id, job, pc, env), id, CheckSends(job, pc));
      }
    case Done(_) => StaysAlone(s, id);
  }

  lemma StaysAlone(s: State, id: Id)
    requires id in s.procs && s.nextId !in s.procs
    ensures Alone(s, s, id)
  {
  }

  lemma SubmitQueues(s: State, id: Id, h: OpHash, signature: Bytes, tx: Tx, env: Env)
    requires id in s.procs && s.nextId !in s.procs
    ensures Alone(s, StepSubmit(s, id, h, signature, Enqueueing(tx), env), id)
  {
    hide Alone;
    EnqueueIsAlone(s, id, Job(h, TxHash(tx)));
  }

  lemma CheckQueues(cfg: Config, s: State, id: Id, job: Job, tx: Tx, env: Env)
    requires id in s.procs && s.nextId !in s.procs
    ensures Alone(s, StepCheck(cfg, s, id, job, Reenqueueing(tx), env), id)
  {
    hide Alone;
    EnqueueIsAlone(s, id, Job(job.h, TxHash(tx)));
  }

  lemma StepKeepsNumbered(cfg: Config, s: State, e: Event)
    requires Numbered(s)
    ensures Numbered(Step(cfg, s, e))
  {
    hide StepSubmit, StepCheck;
    if e.Advance? && e.id in s.procs {
      AdvanceIsAlone(cfg, s, e.id, e.env);
      hide Step;
    }
  }

  lemma {:induction false} RunIsNumbered(cfg: Config, events: seq<Event>)
    ensures Numbered(Reached(cfg, events))
  {
    if events == [] {
      assert Reached(cfg, []) == Init;
    } else {
      var front, e := events[..|events| - 1], events[|events| - 1];
      RunIsNumbered(cfg, front);
      assert Reached(cfg, events) == Step(cfg, Reached(cfg, front), e);
      hide Step, Numbered, Reached;
      StepKeepsNumbered(cfg, Reached(cfg, front), e);
    }
  }

  /** An event that is not its own leaves an agent and its broadcast alone; a new agent has the next number. */
  lemma OthersStep(cfg: Config, s: State, e: Event, i: Id)
    requires Numbered(s) && !OwnStep(e, i)
    ensures var s' := Step(cfg, s, e);
            && s.nextId <= s'.nextId
            && (i in s.procs ==> i in s'.procs && s'.procs[i] == s.procs[i])
            && (i !in s.procs && i in s'.procs ==>
                  && i == s.nextId
                  && (s'.procs[i].Check? || (e.Call? && s'.procs[i] == Submit(e.h, e.signature, Reading))))
            && (i in s'.sent <==> i in s.sent) && (i in s.sent ==> s'.sent[i] == s.sent[i])
  {
    hide StepSubmit, StepCheck;
    if e.Advance? && e.id in s.procs {
      AdvanceIsAlone(cfg, s, e.id, e.env);
      hide Step;
    }
  }

  // ----- where a submit broadcast comes from

  /** Agent `a` is the submit call event `c` made. */
  ghost predicate CalledAt(cfg: Config, events: seq<Event>, a: Id, h: OpHash, signature: Bytes, c: nat) {
    c < |events| && events[c] == Call(h, signature) && Reached(cfg, events[..c]).nextId == a
  }

  /** Event `next` is the first of the agent's own after event `from`. */
  predicate NextOwn(events: seq<Event>, a: Id, from: nat, next: nat) {
    && from < next < |events| && events[next].Advance? && events[next].id == a
    && forall i :: from < i < next ==> !OwnStep(events[i], a)
  }

  predicate QuietSince(events: seq<Event>, a: Id, from: nat) {
    from < |events| && forall i :: from < i < |events| ==> !OwnStep(events[i], a)
  }

  /** The call's first step came while the row was PENDING, and built this struct from it. */
  ghost predicate ReadAt(cfg: Config, events: seq<Event>, a: Id, h: OpHash, signature: Bytes, userOp: PackedUserOp,
                         entryPoint: Address, c: nat, r: nat)
  {
    && CalledAt(cfg, events, a, h, signature, c) && NextOwn(events, a, c, r)
    && var rows := Reached(cfg, events[..r]).rows;
       && h in rows && rows[h].status == PENDING
       && BuildPackedUserOp(rows[h].op, signature) == Ok(userOp) && rows[h].op.entryPoint == entryPoint
  }

  /** The transaction at that moment's pending nonce, fees and 120% of the estimated gas. */
  function Quoted(userOp: PackedUserOp, entryPoint: Address, env: Env): Tx {
    Tx(userOp, entryPoint, env.nonce, env.estimatedGas * 120 / 100, env.maxFeePerGas, env.maxPriorityFeePerGas)
  }

  /** Called at `c`, read at `r` while PENDING, and quoted this transaction at its next step `q`. */
  ghost predicate QuotedAt(cfg: Config, events: seq<Event>, a: Id, h: OpHash, signature: Bytes, tx: Tx,
                           c: nat, r: nat, q: nat)
  {
    && ReadAt(cfg, events, a, h, signature, tx.userOp, tx.entryPoint, c, r)
    && NextOwn(events, a, r, q) && tx == Quoted(tx.userOp, tx.entryPoint, events[q].env)
  }

  ghost predicate ProcTrail(cfg: Config, events: seq<Event>, s: State, i: Id)
    requires i in s.procs
  {
    match s.procs[i]
    case Submit(h, signature, pc) =>
      (match pc
       case Reading => exists c :: CalledAt(cfg, events, i, h, signature, c) && QuietSince(events, i, c)
       case Estimating(userOp, entryPoint) =>
         exists c, r :: ReadAt(cfg, events, i, h, signature, userOp, entryPoint, c, r) && QuietSince(events, i, r)
       case Broadcasting(tx) => exists c, r, q :: QuotedAt(cfg, events, i, h, signature, tx, c, r, q)
       case _ => true)
    case _ => true
  }

  ghost predicate SentTrail(cfg: Config, events: seq<Event>, s: State, i: Id)
    requires i in s.sent
  {
    s.sent[i].origin == FromSubmit ==>
      exists signature, c, r, q :: QuotedAt(cfg, events, i, s.sent[i].h, signature, s.sent[i].tx, c, r, q)
  }

  lemma Prefix(events: seq<Event>, e: Event, c: nat)
    requires c <= |events|
    ensures (events + [e])[..c] == events[..c]
  {
  }

  lemma CalledStays(cfg: Config, events: seq<Event>, e: Event, a: Id, h: OpHash, signature: Bytes, c: nat)
    requires CalledAt(cfg, events, a, h, signature, c)
    ensures CalledAt(cfg, events + [e], a, h, signature, c)
  {
    hide Reached;
    Prefix(events, e, c);
  }

  lemma ReadStays(cfg: Config, events: seq<Event>, e: Event, a: Id, h: OpHash, signature: Bytes, userOp: PackedUserOp,
                  entryPoint: Address, c: nat, r: nat)
    requires ReadAt(cfg, events, a, h, signature, userOp, entryPoint, c, r)
    ensures ReadAt(cfg, events + [e], a, h, signature, userOp, entryPoint, c, r)
  {
    hide Reached, BuildPackedUserOp, CalledAt;
    CalledStays(cfg, events, e, a, h, signature, c);
    Prefix(events, e, r);
  }

  lemma QuoteStays(cfg: Config, events: seq<Event>, e: Event, a: Id, h: OpHash, signature: Bytes, tx: Tx,
                   c: nat, r: nat, q: nat)
    requires QuotedAt(cfg, events, a, h, signature, tx, c, r, q)
    ensures QuotedAt(cfg, events + [e], a, h, signature, tx, c, r, q)
  {
    hide ReadAt;
    ReadStays(cfg, events, e, a, h, signature, tx.userOp, tx.entryPoint, c, r);
  }

  /** While others move, an agent's trail stays as it was. */
  lemma ProcTrailStays(cfg: Config, events: seq<Event>, e: Event, s: State, s': State, i: Id)
    requires i in s.procs && ProcTrail(cfg, events, s, i) && !OwnStep(e, i)
    requires i in s'.procs && s'.procs[i] == s.procs[i]
    ensures ProcTrail(cfg, events + [e], s', i)
  {
    hide CalledAt, ReadAt, QuotedAt;
    if s.procs[i].Submit? {
      var h, signature := s.procs[i].h, s.procs[i].signature;
      match s.procs[i].sub
      case Reading =>
        var c :| CalledAt(cfg, events, i, h, signature, c) && QuietSince(events, i, c);
        CalledStays(cfg, events, e, i, h, signature, c);
        assert QuietSince(events + [e], i, c);
      case Estimating(userOp, entryPoint) =>
        var c, r :| ReadAt(cfg, events, i, h, signature, userOp, entryPoint, c, r) && QuietSince(events, i, r);
        ReadStays(cfg, events, e, i, h, signature, userOp, entryPoint, c, r);
        assert QuietSince(events + [e], i, r);
      case Broadcasting(tx) =>
        var c, r, q :| QuotedAt(cfg, events, i, h, signature, tx, c, r, q);
        QuoteStays(cfg, events, e, i, h, signature, tx, c, r, q);
      case _ =>
    }
  }

  lemma SentTrailStays(cfg: Config, events: seq<Event>, e: Event, s: State, s': State, i: Id)
    requires i in s.sent && SentTrail(cfg, events, s, i) && i in s'.sent && s'.sent[i] == s.sent[i]
    ensures SentTrail(cfg, events + [e], s', i)
  {
    hide QuotedAt;
    if s.sent[i].origin == FromSubmit {
      var signature, c, r, q :| QuotedAt(cfg, events, i, s.sent[i].h, signature, s.sent[i].tx, c, r, q);
      QuoteStays(cfg, events, e, i, s.sent[i].h, signature, s.sent[i].tx, c, r, q);
    }
  }

  /** The read of a row that is PENDING now. */
  lemma ReadTrail(cfg: Config, events: seq<Event>, env: Env, i: Id, h: OpHash, signature: Bytes, c: nat)
    requires var s := Reached(cfg, events); i in s.procs && s.procs[i] == Submit(h, signature, Reading)
    requires CalledAt(cfg, events, i, h, signature, c) && QuietSince(events, i, c)
    ensures var s' := Step(cfg, Reached(cfg, events), Advance(i, env));
            i in s'.procs && ProcTrail(cfg, events + [Advance(i, env)], s', i)
  {
    hide Reached, BuildPackedUserOp, StepCheck, CalledAt;
    var s, e := Reached(cfg, events), Advance(i, env);
    CalledStays(cfg, events, e, i, h, signature, c);
    Prefix(events, e, |events|);
    assert events[..|events|] == events;
    assert NextOwn(events + [e], i, c, |events|);
    if h in s.rows && s.rows[h].status == PENDING && BuildPackedUserOp(s.rows[h].op, signature).Ok? {
      var userOp, entryPoint := BuildPackedUserOp(s.rows[h].op, signature).value, s.rows[h].op.entryPoint;
      assert ReadAt(cfg, events + [e], i, h, signature, userOp, entryPoint, c, |events|);
    }
  }

  lemma QuoteTrail(cfg: Config, events: seq<Event>, env: Env, i: Id, h: OpHash, signature: Bytes, userOp: PackedUserOp,
                   entryPoint: Address, c: nat, r: nat)
    requires var s := Reached(cfg, events);
             i in s.procs && s.procs[i] == Submit(h, signature, Estimating(userOp, entryPoint))
    requires ReadAt(cfg, events, i, h, signature, userOp, entryPoint, c, r) && QuietSince(events, i, r)
    ensures var s' := Step(cfg, Reached(cfg, events), Advance(i, env));
            i in s'.procs && ProcTrail(cfg, events + [Advance(i, env)], s', i)
  {
    hide Reached, StepCheck, ReadAt;
    var e := Advance(i, env);
    ReadStays(cfg, events, e, i, h, signature, userOp, entryPoint, c, r);
    assert NextOwn(events + [e], i, r, |events|);
    assert QuotedAt(cfg, events + [e], i, h, signature, Quoted(userOp, entryPoint, env), c, r, |events|);
  }

  /** The call's own step lengthens its trail. */
  lemma OwnTrail(cfg: Config, events: seq<Event>, i: Id, env: Env)
    requires var s := Reached(cfg, events);
             i in s.procs && s.procs[i].Submit? && !s.procs[i].sub.Enqueueing? && ProcTrail(cfg, events, s, i)
    ensures var s' := Step(cfg, Reached(cfg, events), Advance(i, env));
            i in s'.procs && ProcTrail(cfg, events + [Advance(i, env)], s', i)
  {
    hide Reached, BuildPackedUserOp, StepCheck, ReadAt, CalledAt, QuotedAt;
    var s := Reached(cfg, events);
    var h, signature := s.procs[i].h, s.procs[i].signature;
    match s.procs[i].sub
    case Reading =>
      var c :| CalledAt(cfg, events, i, h, signature, c) && QuietSince(events, i, c);
      ReadTrail(cfg, events, env, i, h, signature, c);
    case Estimating(userOp, entryPoint) =>
      var c, r :| ReadAt(cfg, events, i, h, signature, userOp, entryPoint, c, r) && QuietSince(events, i, r);
      QuoteTrail(cfg, events, env, i, h, signature, userOp, entryPoint, c, r);
    case Broadcasting(tx) =>
    case MarkingSubmitted(tx) =>
  }

  ghost predicate Trailed(cfg: Config, events: seq<Event>, s: State) {
    && (forall i :: i in s.procs ==> ProcTrail(cfg, events, s, i))
    && (forall i :: i in s.sent ==> SentTrail(cfg, events, s, i))
  }

  /** A new submit call. */
  lemma CallTrail(cfg: Config, events: seq<Event>, h: OpHash, signature: Bytes)
    ensures var s := Reached(cfg, events);
            CalledAt(cfg, events + [Call(h, signature)], s.nextId, h, signature, |events|)
            && QuietSince(events + [Call(h, signature)], s.nextId, |events|)
  {
    hide Reached;
    Prefix(events, Call(h, signature), |events|);
    assert events[..|events|] == events;
  }

  lemma StepProcTrail(cfg: Config, events: seq<Event>, e: Event, i: Id)
    requires Trailed(cfg, events, Reached(cfg, events)) && Numbered(Reached(cfg, events))
    requires i in Step(cfg, Reached(cfg, events), e).procs
    ensures ProcTrail(cfg, events + [e], Step(cfg, Reached(cfg, events), e), i)
  {
    var s, s' := Reached(cfg, events), Step(cfg, Reached(cfg, events), e);
    hide Reached, StepSubmit, StepCheck, CalledAt, QuietSince;
    if OwnStep(e, i) && i in s.procs {
      if e.Advance? && s.procs[i].Submit? && !s.procs[i].sub.Enqueueing? {
        OwnTrail(cfg, events, i, e.env);
      } else if e.Advance? {
        NoSubmitAfter(cfg, s, i, e.env);
      }
    } else {
      OthersStep(cfg, s, e, i);
      if i in s.procs {
        hide Step, ProcTrail;
        assert ProcTrail(cfg, events, s, i);
        ProcTrailStays(cfg, events, e, s, s', i);
      } else if e.Call? {
        CallTrail(cfg, events, e.h, e.signature);
      }
    }
  }

  /** A check, or a call that has queued its job, is no submit call afterwards. */
  lemma NoSubmitAfter(cfg: Config, s: State, i: Id, env: Env)
    requires Numbered(s) && i in s.procs && (s.procs[i].Submit? ==> s.procs[i].sub.Enqueueing?)
    ensures var s' := Step(cfg, s, Advance(i, env)); i in s'.procs && !s'.procs[i].Submit?
  {
    AdvanceIsAlone(cfg, s, i, env);
    if s.procs[i].Submit? {
      hide StepCheck;
    } else {
      hide Step;
    }
  }

  lemma StepSentTrail(cfg: Config, events: seq<Event>, e: Event, i: Id)
    requires Trailed(cfg, events, Reached(cfg, events)) && Numbered(Reached(cfg, events))
    requires i in Step(cfg, Reached(cfg, events), e).sent
    ensures SentTrail(cfg, events + [e], Step(cfg, Reached(cfg, events), e), i)
  {
    var s, s' := Reached(cfg, events), Step(cfg, Reached(cfg, events), e);
    hide Reached, StepSubmit, StepCheck, QuotedAt;
    if i in s.sent && s'.sent[i] == s.sent[i] {
      SentTrailStays(cfg, events, e, s, s', i);
    } else {
      if !OwnStep(e, i) {
        OthersStep(cfg, s, e, i);
      }
      FreshBroadcast(cfg, s, i, e);
      if s'.sent[i].origin == FromSubmit {
        var tx := s.procs[i].sub.tx;
        assert ProcTrail(cfg, events, s, i);
        var c, r, q :| QuotedAt(cfg, events, i, s.procs[i].h, s.procs[i].signature, tx, c, r, q);
        QuoteStays(cfg, events, e, i, s.procs[i].h, s.procs[i].signature, tx, c, r, q);
      }
    }
  }

  /** A broadcast that was not there before is the one its agent was about to make. */
  lemma FreshBroadcast(cfg: Config, s: State, i: Id, e: Event)
    requires Numbered(s) && OwnStep(e, i) && i in Step(cfg, s, e).sent
    requires i in s.sent ==> Step(cfg, s, e).sent[i] != s.sent[i]
    ensures var sent := Step(cfg, s, e).sent[i];
            i in s.procs && (sent.origin == FromSubmit ==>
              s.procs[i].Submit? && s.procs[i].sub.Broadcasting?
              && sent == Sent(s.procs[i].h, FromSubmit, s.procs[i].sub.tx))
  {
    hide StepSubmit, StepCheck;
    if e.Advance? && i in s.procs {
      match s.procs[i]
      case Submit(h, signature, pc) =>
        if pc.Enqueueing? {
          QueueSendsNothing(s, i, h, signature, pc.tx, e.env);
        } else {
          SubmitShape(s, i, h, signature, pc, e.env);
        }
      case Check(job, pc) =>
        if pc.Reenqueueing? {
          RequeueSendsNothing(cfg, s, i, job, pc.tx, e.env);
        } else {
          CheckShape(cfg, s, i, job, pc, e.env);
        }
      case Done(_) =>
    }
  }

  lemma QueueSendsNothing(s: State, id: Id, h: OpHash, signature: Bytes, tx: Tx, env: Env)
    ensures StepSubmit(s, id, h, signature, Enqueueing(tx), env).sent == s.sent
  {
  }

  lemma RequeueSendsNothing(cfg: Config, s: State, id: Id, job: Job, tx: Tx, env: Env)
    ensures StepCheck(cfg, s, id, job, Reenqueueing(tx), env).sent == s.sent
  {
  }

  lemma {:induction false} RunIsTrailed(cfg: Config, events: seq<Event>)
    ensures Trailed(cfg, events, Reached(cfg, events))
  {
    if events == [] {
      assert Reached(cfg, []) == Init;
    } else {
      var front, e := events[..|events| - 1], events[|events| - 1];
      RunIsTrailed(cfg, front);
      RunIsNumbered(cfg, front);
      var s, s' := Reached(cfg, front), Reached(cfg, events);
      assert s' == Step(cfg, s, e) && events == front + [e];
      hide Step, Reached, ProcTrail, SentTrail, Numbered;
      forall i | i in s'.procs ensures ProcTrail(cfg, events, s', i) {
        StepProcTrail(cfg, front, e, i);
      }
      forall i | i in s'.sent ensures SentTrail(cfg, events, s', i) {
        StepSentTrail(cfg, front, e, i);
      }
    }
  }

  /**
   * Every submit broadcast, in every run whatsoever: its call read the row while PENDING, at its first step, and
   * signed that row's struct with its own signature; nonce, fees and gas are what its second step was quoted.
   */
  lemma SubmitBroadcastsAreQuoted(cfg: Config, events: seq<Event>, i: Id)
    returns (signature: Bytes, c: nat, r: nat, q: nat)
    requires i in Reached(cfg, events).sent && Reached(cfg, events).sent[i].origin == FromSubmit
    ensures var sent := Reached(cfg, events).sent[i];
            QuotedAt(cfg, events, i, sent.h, signature, sent.tx, c, r, q)
  {
    RunIsTrailed(cfg, events);
    hide Reached, QuotedAt, ProcTrail;
    var s := Reached(cfg, events);
    assert SentTrail(cfg, events, s, i);
    signature, c, r, q :| QuotedAt(cfg, events, i, s.sent[i].h, signature, s.sent[i].tx, c, r, q);
  }

  // ----- a call that comes late

  /** Nothing goes backwards: agents, calls, and rows that left PENDING. */
  ghost predicate Onwards(s: State, s': State) {
    && s.nextId <= s'.nextId && s.calls.Keys <= s'.calls.Keys
    && forall h :: h in s.rows && s.rows[h].status != PENDING ==> h in s'.rows && s'.rows[h].status != PENDING
  }

  lemma PutGoesOnwards(s: State, s': State)
    requires s'.rows == s.rows && s'.calls == s.calls && s'.nextId >= s.nextId
    ensures Onwards(s, s')
  {
  }

  lemma WriteGoesOnwards(s: State, id: Id, h: OpHash, row: UserOperation, a: Audit, p: Proc)
    requires row.status != PENDING
    ensures Onwards(s, Put(Write(s, h, row, a), id, p))
  {
  }

  lemma SubmitGoesOnwards(s: State, id: Id, h: OpHash, signature: Bytes, pc: SubmitPc, env: Env)
    requires id in s.procs && s.procs[id] == Submit(h, signature, pc)
    ensures Onwards(s, StepSubmit(s, id, h, signature, pc, env))
  {
    hide Onwards, BuildPackedUserOp, SubmitAudit, Write;
    if pc.MarkingSubmitted? && CanMove(s.rows, h, SUBMITTABLE) {
      WriteGoesOnwards(s, id, h, SubmittedRow(s.rows[h], pc.tx, signature), SubmitAudit(s, id, h),
                       Submit(h, signature, Enqueueing(pc.tx)));
    } else {
      PutGoesOnwards(s, StepSubmit(s, id, h, signature, pc, env));
    }
  }

  lemma CheckGoesOnwards(cfg: Config, s: State, id: Id, job: Job, pc: CheckPc, env: Env)
    requires id in s.procs && s.procs[id] == Check(job, pc)
    ensures Onwards(s, StepCheck(cfg, s, id, job, pc, env))
  {
    hide Onwards, Replacement, StuckAudit, BumpAudit, AuditOf, Write, ReceiptOf;
    var h := job.h;
    match pc
    case MarkingConfirmed(receipt) =>
      if CanMove(s.rows, h, RESOLVABLE) {
        WriteGoesOnwards(s, id, h, ConfirmedRow(s.rows[h], receipt), AuditOf(s, h), Done(Completed));
      } else {
        PutGoesOnwards(s, Finish(s, id, LostCheckUpdate));
      }
    case MarkingReverted =>
      if CanMove(s.rows, h, RESOLVABLE) {
        WriteGoesOnwards(s, id, h, FailedRow(s.rows[h], TransactionReverted), AuditOf(s, h), Done(Completed));
      } else {
        PutGoesOnwards(s, Finish(s, id, LostCheckUpdate));
      }
    case MarkingExhausted =>
      if CanMove(s.rows, h, RESOLVABLE) {
        WriteGoesOnwards(s, id, h, FailedRow(s.rows[h], ExceededMaxBumps(cfg.maxAttempts)), AuditOf(s, h),
                         Done(Completed));
      } else {
        PutGoesOnwards(s, Finish(s, id, LostCheckUpdate));
      }
    case MarkingStuck(row) =>
      if CanMove(s.rows, h, STICKABLE) {
        var tx := Replacement(cfg, row);
        WriteGoesOnwards(s, id, h, StuckRow(s.rows[h]), StuckAudit(s, id, h),
                         if tx.Err? then Done(ReplacementThrew) else Check(job, Rebroadcasting(tx.value)));
      } else {
        PutGoesOnwards(s, Finish(s, id, LostCheckUpdate));
      }
    case Remarking(tx) =>
      if CanMove(s.rows, h, SUBMITTABLE) {
        WriteGoesOnwards(s, id, h, ResubmittedRow(s.rows[h], tx), BumpAudit(s, id, h), Check(job, Reenqueueing(tx)));
      } else {
        PutGoesOnwards(s, Finish(s, id, LostResubmitRace));
      }
    case _ => PutGoesOnwards(s, StepCheck(cfg, s, id, job, pc, env));
  }

  lemma StepGoesOnwards(cfg: Config, s: State, e: Event)
    requires Numbered(s)
    ensures Onwards(s, Step(cfg, s, e))
  {
    hide StepSubmit, StepCheck;
    if e.Advance? && e.id in s.procs {
      match s.procs[e.id]
      case Submit(h, signature, pc) => SubmitGoesOnwards(s, e.id, h, signature, pc, e.env);
      case Check(job, pc) => CheckGoesOnwards(cfg, s, e.id, job, pc, e.env);
      case Done(_) =>
    }
  }

  lemma {:induction false} RunGoesOnwards(cfg: Config, events: seq<Event>, m: nat, n: nat)
    requires m <= n <= |events|
    ensures Onwards(Reached(cfg, events[..m]), Reached(cfg, events[..n]))
    decreases n
  {
    if m < n {
      RunGoesOnwards(cfg, events, m, n - 1);
      RunIsNumbered(cfg, events[..n - 1]);
      StepAt(cfg, events, n - 1);
      hide Step, Reached;
      StepGoesOnwards(cfg, Reached(cfg, events[..n - 1]), events[n - 1]);
    }
  }

  lemma StepAt(cfg: Config, events: seq<Event>, n: nat)
    requires n < |events|
    ensures Reached(cfg, events[..n + 1]) == Step(cfg, Reached(cfg, events[..n]), events[n])
  {
    assert events[..n + 1][..n] == events[..n];
  }

  lemma CallCounts(cfg: Config, events: seq<Event>, c: nat)
    requires c < |events| && events[c].Call?
    ensures var a := Reached(cfg, events[..c]).nextId;
            Reached(cfg, events[..c + 1]).nextId == a + 1 && a in Reached(cfg, events[..c + 1]).calls
  {
    StepAt(cfg, events, c);
  }

  lemma OneCallEach(cfg: Config, events: seq<Event>, c: nat, c': nat)
    requires c < |events| && c' < |events| && events[c].Call? && events[c'].Call?
    requires Reached(cfg, events[..c]).nextId == Reached(cfg, events[..c']).nextId
    ensures c == c'
  {
    CallCounts(cfg, events, c);
    CallCounts(cfg, events, c');
    hide Reached;
    if c < c' {
      RunGoesOnwards(cfg, events, c + 1, c');
    } else if c' < c {
      RunGoesOnwards(cfg, events, c' + 1, c);
    }
  }

  /** A call made after its row left PENDING never broadcasts, whatever else the run does. */
  lemma LateCallNeverBroadcasts(cfg: Config, events: seq<Event>, c: nat)
    requires c < |events| && events[c].Call?
    requires var s := Reached(cfg, events[..c]); events[c].h in s.rows && s.rows[events[c].h].status != PENDING
    ensures Reached(cfg, events[..c]).nextId !in Reached(cfg, events).sent
  {
    var a := Reached(cfg, events[..c]).nextId;
    CallCounts(cfg, events, c);
    RunGoesOnwards(cfg, events, c + 1, |events|);
    assert events[..|events|] == events;
    RunIsNumbered(cfg, events);
    hide Reached;
    if a in Reached(cfg, events).sent {
      var signature, c', r, q := SubmitBroadcastsAreQuoted(cfg, events, a);
      OneCallEach(cfg, events, c, c');
      RunGoesOnwards(cfg, events, c, r);
    }
  }

  // ----- one agent among others

  /** Others move, then the agent does. */
  lemma Turn(cfg: Config, before: seq<Event>, others: seq<Event>, id: Id, env: Env)
    requires id in Reached(cfg, before).procs && Leaves(others, id)
    ensures var s, t := Reached(cfg, before), Reached(cfg, before + others);
            && id in t.procs && t.procs[id] == s.procs[id] && (id in t.sent <==> id in s.sent)
            && (id in s.sent ==> t.sent[id] == s.sent[id])
            && Reached(cfg, before + others + [Advance(id, env)]) == Step(cfg, t, Advance(id, env))
  {
    Bystander(cfg, before, others, id);
    hide Step;
    assert (before + others + [Advance(id, env)])[..|before + others|] == before + others;
  }

  lemma {:induction false} Bystander(cfg: Config, before: seq<Event>, others: seq<Event>, id: Id)
    requires id in Reached(cfg, before).procs && Leaves(others, id)
    ensures var s, t := Reached(cfg, before), Reached(cfg, before + others);
            && id in t.procs && t.procs[id] == s.procs[id] && (id in t.sent <==> id in s.sent)
            && (id in s.sent ==> t.sent[id] == s.sent[id])
  {
    if others == [] {
      assert before + others == before;
    } else {
      var n := |others| - 1;
      var all := before + others;
      assert all[..|all| - 1] == before + others[..n] && others == others[..n] + [others[n]];
      Bystander(cfg, before, others[..n], id);
      RunIsNumbered(cfg, before + others[..n]);
      assert Reached(cfg, all) == Step(cfg, Reached(cfg, before + others[..n]), others[n]);
      hide Reached;
      OthersStep(cfg, Reached(cfg, before + others[..n]), others[n], id);
    }
  }

  /** How a submit call ends that has no struct to send. */
  function Refusal(rows: Table, h: OpHash): Outcome {
    if h !in rows then NotFound
    else if rows[h].status != PENDING then NotPending(rows[h].status)
    else Threw
  }

  /** The row is there, PENDING, and its struct can be built. */
  predicate Submittable(rows: Table, h: OpHash, signature: Bytes) {
    h in rows && rows[h].status == PENDING && BuildPackedUserOp(rows[h].op, signature).Ok?
  }

  lemma SubmitAdvance(cfg: Config, s: State, id: Id, h: OpHash, signature: Bytes, pc: SubmitPc, env: Env)
    requires id in s.procs && s.procs[id] == Submit(h, signature, pc)
    ensures Step(cfg, s, Advance(id, env)) == StepSubmit(s, id, h, signature, pc, env)
  {
    hide StepSubmit, StepCheck;
  }

  lemma CheckAdvance(cfg: Config, s: State, id: Id, job: Job, pc: CheckPc, env: Env)
    requires id in s.procs && s.procs[id] == Check(job, pc)
    ensures Step(cfg, s, Advance(id, env)) == StepCheck(cfg, s, id, job, pc, env)
  {
    hide StepSubmit, StepCheck;
  }

  lemma ReadPuts(s: State, id: Id, h: OpHash, signature: Bytes, env: Env)
    ensures StepSubmit(s, id, h, signature, Reading, env)
         == Put(s, id, if Submittable(s.rows, h, signature)
                       then Submit(h, signature, Estimating(BuildPackedUserOp(s.rows[h].op, signature).value,
                                                            s.rows[h].op.entryPoint))
                       else Done(Refusal(s.rows, h)))
  {
    hide BuildPackedUserOp;
  }

  lemma ReadStep(cfg: Config, s: State, id: Id, h: OpHash, signature: Bytes, env: Env)
    requires id in s.procs && s.procs[id] == Submit(h, signature, Reading)
    ensures var s' := Step(cfg, s, Advance(id, env));
            && s'.sent == s.sent && id in s'.procs
            && s'.procs[id] == if Submittable(s.rows, h, signature)
                               then Submit(h, signature, Estimating(BuildPackedUserOp(s.rows[h].op, signature).value,
                                                                    s.rows[h].op.entryPoint))
                               else Done(Refusal(s.rows, h))
  {
    hide Step, StepSubmit, BuildPackedUserOp, Refusal, Submittable;
    SubmitAdvance(cfg, s, id, h, signature, Reading, env);
    ReadPuts(s, id, h, signature, env);
  }

  lemma EstimateStep(cfg: Config, s: State, id: Id, h: OpHash, signature: Bytes, userOp: PackedUserOp,
                     entryPoint: Address, env: Env)
    requires id in s.procs && s.procs[id] == Submit(h, signature, Estimating(userOp, entryPoint))
    ensures var s' := Step(cfg, s, Advance(id, env));
            && s'.sent == s.sent && id in s'.procs
            && s'.procs[id] == Submit(h, signature, Broadcasting(Quoted(userOp, entryPoint, env)))
  {
    hide StepCheck;
  }

  lemma BroadcastStep(cfg: Config, s: State, id: Id, h: OpHash, signature: Bytes, tx: Tx, env: Env)
    requires id in s.procs && s.procs[id] == Submit(h, signature, Broadcasting(tx))
    ensures var s' := Step(cfg, s, Advance(id, env)); id in s'.sent && s'.sent[id] == Sent(h, FromSubmit, tx)
  {
    hide StepCheck;
  }

  lemma DoneStep(cfg: Config, s: State, id: Id, env: Env)
    requires id in s.procs && s.procs[id].Done?
    ensures Step(cfg, s, Advance(id, env)) == s
  {
  }

  lemma CallStep(cfg: Config, before: seq<Event>, h: OpHash, signature: Bytes)
    ensures var a := Reached(cfg, before).nextId;
            var s := Reached(cfg, before + [Call(h, signature)]);
            a in s.procs && s.procs[a] == Submit(h, signature, Reading) && a !in s.sent
  {
    assert (before + [Call(h, signature)])[..|before|] == before;
    RunIsNumbered(cfg, before);
    hide Reached;
  }

  /**
   * A submit call's first three steps, whoever moves in between: it broadcasts if and only if it read its row
   * PENDING and could build the struct, and then exactly what it was quoted; otherwise it ends with its refusal.
   */
  lemma SubmitConduct(cfg: Config, before: seq<Event>, h: OpHash, signature: Bytes, a: Id,
                      x0: seq<Event>, env0: Env, x1: seq<Event>, env1: Env, x2: seq<Event>, env2: Env)
    requires a == Reached(cfg, before).nextId && Leaves(x0, a) && Leaves(x1, a) && Leaves(x2, a)
    ensures var read := before + [Call(h, signature)] + x0;
            var rows := Reached(cfg, read).rows;
            var s := Reached(cfg, read + [Advance(a, env0)] + x1 + [Advance(a, env1)] + x2 + [Advance(a, env2)]);
            if Submittable(rows, h, signature) then
              a in s.sent && s.sent[a] == Sent(h, FromSubmit, Quoted(BuildPackedUserOp(rows[h].op, signature).value,
                                                                     rows[h].op.entryPoint, env1))
            else a !in s.sent && a in s.procs && s.procs[a] == Done(Refusal(rows, h))
  {
    hide Reached, Step, Leaves, BuildPackedUserOp, Refusal;
    var called := before + [Call(h, signature)];
    CallStep(cfg, before, h, signature);
    Turn(cfg, called, x0, a, env0);
    var read := Reached(cfg, called + x0);
    ReadStep(cfg, read, a, h, signature, env0);
    var first := called + x0 + [Advance(a, env0)];
    Turn(cfg, first, x1, a, env1);
    var second := first + x1 + [Advance(a, env1)];
    if Submittable(read.rows, h, signature) {
      var userOp, entryPoint := BuildPackedUserOp(read.rows[h].op, signature).value, read.rows[h].op.entryPoint;
      EstimateStep(cfg, Reached(cfg, first + x1), a, h, signature, userOp, entryPoint, env1);
      Turn(cfg, second, x2, a, env2);
      BroadcastStep(cfg, Reached(cfg, second + x2), a, h, signature, Quoted(userOp, entryPoint, env1), env2);
    } else {
      DoneStep(cfg, Reached(cfg, first + x1), a, env1);
      Turn(cfg, second, x2, a, env2);
      DoneStep(cfg, Reached(cfg, second + x2), a, env2);
    }
  }

  /** A call made after its row left PENDING is refused with the row's status as soon as it reads. */
  lemma LateCallIsRefused(cfg: Config, before: seq<Event>, h: OpHash, signature: Bytes, a: Id, others: seq<Event>,
                          env: Env)
    requires a == Reached(cfg, before).nextId && Leaves(others, a)
    requires h in Reached(cfg, before).rows && Reached(cfg, before).rows[h].status != PENDING
    ensures var read := before + [Call(h, signature)] + others;
            var rows, s := Reached(cfg, read).rows, Reached(cfg, read + [Advance(a, env)]);
            && h in rows && rows[h].status != PENDING
            && a in s.procs && s.procs[a] == Done(NotPending(rows[h].status))
  {
    var called := before + [Call(h, signature)];
    var read := called + others;
    assert read[..|before|] == before && read[..|read|] == read;
    RunGoesOnwards(cfg, read, |before|, |read|);
    CallStep(cfg, before, h, signature);
    hide Reached, Step, Leaves, BuildPackedUserOp;
    Turn(cfg, called, others, a, env);
    ReadStep(cfg, Reached(cfg, read), a, h, signature, env);
  }
}
