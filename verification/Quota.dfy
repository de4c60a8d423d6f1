/**
 * Quota accounting: policy.service.ts `checkAndConsumeQuota` inside paymaster.service.ts `sponsor`, as
 * interleaved requests over one usage table and one operation table.
 */
module Quota {
  import opened Wrappers
  import opened Numbers
  import opened Policies

  type Id = nat
  type UserOpHash = Bytes

  /** The unique key of `wallet_quota_usage`: lower-cased wallet, policy, UTC day. */
  datatype Key = Key(wallet: string, policyId: string, day: int)

  const MS_PER_DAY: int := 86_400_000

  /** `truncateToUtcDate`, as the number of whole UTC days since the epoch. */
  function UtcDay(ms: int): int {
    ms / MS_PER_DAY
  }

  function QuotaKey(wallet: string, policyId: string, ms: int): Key {
    Key(ToLower(wallet), policyId, UtcDay(ms))
  }

  type Usage = map<Key, nat>

  /** `upsert` with an empty update: creates the counter at zero, never resets it. */
  function Upserted(usage: Usage, k: Key): Usage {
    if k in usage then usage else usage[k := 0]
  }

  /** The conditional increment's row count. */
  predicate UnderQuota(usage: Usage, k: Key, quota: int) {
    k in usage && usage[k] < quota
  }

  /** The await a request will issue next. */
  datatype Pc =
    | Upserting
    | Consuming
    | Signing
    | Inserting(hash: UserOpHash)
    | Sponsored(hash: UserOpHash)
    | QuotaExceeded
    | SigningFailed
    | Duplicate
    | Crashed(granted: bool)

  datatype Request = Request(key: Key, quota: int, pc: Pc)

  /** The inserted row, with the request that inserted it. */
  datatype RowRef = RowRef(id: Id, key: Key)

  datatype State = State(usage: Usage, requests: map<Id, Request>, nextId: Id, rows: map<UserOpHash, RowRef>)

  const Init := State(map[], map[], 0, map[])

  /** `signed` is the userOpHash signing produced, None when signing threw. */
  datatype Event =
    | Start(wallet: string, policy: Policy, ms: int)
    | Advance(id: Id, signed: Option<UserOpHash>)
    | Crash(id: Id)

  predicate Granted(pc: Pc) {
    pc.Signing? || pc.Inserting? || pc.Sponsored? || pc.SigningFailed? || pc.Duplicate? || (pc.Crashed? && pc.granted)
  }

  predicate Finished(pc: Pc) {
    !pc.Upserting? && !pc.Consuming? && !pc.Signing? && !pc.Inserting?
  }

  function Put(s: State, id: Id, r: Request, pc: Pc): State {
    s.(requests := s.requests[id := r.(pc := pc)])
  }

  function Advanced(s: State, id: Id, signed: Option<UserOpHash>): State
    requires id in s.requests
  {
    var r := s.requests[id];
    match r.pc
    case Upserting => Put(s, id, r, Consuming).(usage := Upserted(s.usage, r.key))
    case Consuming =>
      if UnderQuota(s.usage, r.key, r.quota)
      then Put(s, id, r, Signing).(usage := s.usage[r.key := s.usage[r.key] + 1])
      else Put(s, id, r, QuotaExceeded)
    case Signing => Put(s, id, r, if signed.Some? then Inserting(signed.value) else SigningFailed)
    case Inserting(hash) =>
      if hash in s.rows then Put(s, id, r, Duplicate)
      else Put(s, id, r, Sponsored(hash)).(rows := s.rows[hash := RowRef(id, r.key)])
    case _ => s
  }

  function Step(s: State, e: Event): State {
    match e
    case Start(wallet, policy, ms) =>
      s.(requests := s.requests[s.nextId := Request(QuotaKey(wallet, policy.id, ms), policy.dailyQuota, Upserting)],
         nextId := s.nextId + 1)
    case Advance(id, signed) => if id in s.requests then Advanced(s, id, signed) else s
    case Crash(id) =>
      if id in s.requests && !Finished(s.requests[id].pc)
      then Put(s, id, s.requests[id], Crashed(Granted(s.requests[id].pc)))
      else s
  }

  function Run(s: State, events: seq<Event>): State {
    if events == [] then s else Step(Run(s, events[..|events| - 1]), events[|events| - 1])
  }

  // ----- what is counted

  ghost function Grants(s: State, k: Key): set<Id> {
    set i | i in s.requests && s.requests[i].key == k && Granted(s.requests[i].pc)
  }

  ghost function Refusals(s: State, k: Key): set<Id> {
    set i | i in s.requests && s.requests[i].key == k && s.requests[i].pc == QuotaExceeded
  }

  /** Requests whose row is in the operation table. */
  ghost function Inserted(s: State, k: Key): set<Id> {
    set i | i in s.requests && s.requests[i].key == k && s.requests[i].pc.Sponsored?
  }

  ghost function InFlight(s: State, k: Key): set<Id> {
    set i | i in s.requests && s.requests[i].key == k && (s.requests[i].pc.Signing? || s.requests[i].pc.Inserting?)
  }

  /** Granted, then lost: signing failed, the hash was a duplicate, or the process died. */
  ghost function Aborted(s: State, k: Key): set<Id> {
    set i | i in s.requests && s.requests[i].key == k
            && (s.requests[i].pc.SigningFailed? || s.requests[i].pc.Duplicate? || s.requests[i].pc == Crashed(true))
  }

  ghost function RowsUnder(s: State, k: Key): set<UserOpHash> {
    set h | h in s.rows && s.rows[h].key == k
  }

  function OpsCount(s: State, k: Key): nat {
    if k in s.usage then s.usage[k] else 0
  }

  // ----- the invariant

  ghost predicate KeyOk(s: State, k: Key) {
    && OpsCount(s, k) == |Grants(s, k)|
    && |RowsUnder(s, k)| == |Inserted(s, k)|
  }

  ghost predicate RequestOk(s: State, i: Id)
    requires i in s.requests
  {
    var r := s.requests[i];
    && i < s.nextId
    && (!r.pc.Upserting? && r.pc != Crashed(false) ==> r.key in s.usage)
    && (r.pc.Sponsored? ==> r.pc.hash in s.rows && s.rows[r.pc.hash] == RowRef(i, r.key))
    && (r.pc == QuotaExceeded ==> OpsCount(s, r.key) >= r.quota)
    && (Granted(r.pc) ==> OpsCount(s, r.key) >= 1)
  }

  ghost predicate Inv(s: State) {
    && (forall k :: KeyOk(s, k))
    && (forall i :: i in s.requests ==> RequestOk(s, i))
  }

  /** How one request's move changes the sets of its key: it may join the grants, and may join the inserted. */
  ghost predicate Moves(s: State, s': State, id: Id, r: Request, pc: Pc) {
    && id in s.requests && s.requests[id] == r
    && s'.requests == s.requests[id := r.(pc := pc)] && s'.nextId == s.nextId
  }

  lemma OtherKeysUnmoved(s: State, s': State, id: Id, r: Request, pc: Pc, k: Key)
    requires Moves(s, s', id, r, pc) && k != r.key
    ensures Grants(s', k) == Grants(s, k) && Inserted(s', k) == Inserted(s, k)
  {
  }

  lemma OwnKeyMoves(s: State, s': State, id: Id, r: Request, pc: Pc)
    requires Moves(s, s', id, r, pc)
    ensures Granted(pc) ==> Grants(s', r.key) == Grants(s, r.key) + {id}
    ensures Granted(r.pc) == Granted(pc) ==> Grants(s', r.key) == Grants(s, r.key)
    ensures Granted(r.pc) <==> id in Grants(s, r.key)
    ensures pc.Sponsored? ==> Inserted(s', r.key) == Inserted(s, r.key) + {id}
    ensures r.pc.Sponsored? == pc.Sponsored? ==> Inserted(s', r.key) == Inserted(s, r.key)
    ensures r.pc.Sponsored? <==> id in Inserted(s, r.key)
  {
  }

  lemma MoveKeepsInv(s: State, s': State, id: Id, r: Request, pc: Pc)
    requires Inv(s) && Moves(s, s', id, r, pc)
    requires Granted(r.pc) ==> Granted(pc)
    requires !r.pc.Sponsored?
    requires s'.usage.Keys >= s.usage.Keys
    requires forall k :: k != r.key ==> OpsCount(s', k) == OpsCount(s, k)
    requires OpsCount(s', r.key) == OpsCount(s, r.key) + if Granted(pc) && !Granted(r.pc) then 1 else 0
    requires s'.rows == if pc.Sponsored? then s.rows[pc.hash := RowRef(id, r.key)] else s.rows
    requires pc.Sponsored? ==> pc.hash !in s.rows
    requires RequestOk(s', id)
    ensures Inv(s')
  {
    hide KeyOk, RequestOk;
    forall k ensures KeyOk(s', k) {
      assert KeyOk(s, k);
      if k == r.key { OwnKeyOk(s, s', id, r, pc); } else { OtherKeyOk(s, s', id, r, pc, k); }
    }
    forall i | i in s'.requests && i != id ensures RequestOk(s', i) {
      assert RequestOk(s, i);
      OtherRequestOk(s, s', id, r, pc, i);
    }
  }

  lemma OtherKeyOk(s: State, s': State, id: Id, r: Request, pc: Pc, k: Key)
    requires Moves(s, s', id, r, pc) && k != r.key && KeyOk(s, k) && OpsCount(s', k) == OpsCount(s, k)
    requires s'.rows == if pc.Sponsored? then s.rows[pc.hash := RowRef(id, r.key)] else s.rows
    requires pc.Sponsored? ==> pc.hash !in s.rows
    ensures KeyOk(s', k)
  {
    OtherKeysUnmoved(s, s', id, r, pc, k);
    assert RowsUnder(s', k) == RowsUnder(s, k);
  }

  lemma OwnKeyOk(s: State, s': State, id: Id, r: Request, pc: Pc)
    requires Moves(s, s', id, r, pc) && KeyOk(s, r.key)
    requires Granted(r.pc) ==> Granted(pc)
    requires !r.pc.Sponsored?
    requires OpsCount(s', r.key) == OpsCount(s, r.key) + if Granted(pc) && !Granted(r.pc) then 1 else 0
    requires s'.rows == if pc.Sponsored? then s.rows[pc.hash := RowRef(id, r.key)] else s.rows
    requires pc.Sponsored? ==> pc.hash !in s.rows
    ensures KeyOk(s', r.key)
  {
    hide Grants, Inserted, RowsUnder, OpsCount, Granted;
    OwnKeyMoves(s, s', id, r, pc);
    RowsMove(s, s', id, r, pc);
  }

  lemma RowsMove(s: State, s': State, id: Id, r: Request, pc: Pc)
    requires s'.rows == if pc.Sponsored? then s.rows[pc.hash := RowRef(id, r.key)] else s.rows
    requires pc.Sponsored? ==> pc.hash !in s.rows
    ensures |RowsUnder(s', r.key)| == |RowsUnder(s, r.key)| + if pc.Sponsored? then 1 else 0
  {
    if pc.Sponsored? {
      assert RowsUnder(s', r.key) == RowsUnder(s, r.key) + {pc.hash};
    } else {
      assert RowsUnder(s', r.key) == RowsUnder(s, r.key);
    }
  }

  lemma OtherRequestOk(s: State, s': State, id: Id, r: Request, pc: Pc, i: Id)
    requires Moves(s, s', id, r, pc) && i in s.requests && i != id && RequestOk(s, i)
    requires s'.usage.Keys >= s.usage.Keys && forall k :: OpsCount(s', k) >= OpsCount(s, k)
    requires forall h :: h in s.rows ==> h in s'.rows && s'.rows[h] == s.rows[h]
    ensures RequestOk(s', i)
  {
  }

  lemma AdvanceKeepsInv(s: State, id: Id, signed: Option<UserOpHash>)
    requires Inv(s) && id in s.requests
    ensures Inv(Advanced(s, id, signed))
  {
    hide KeyOk;
    var r := s.requests[id];
    assert RequestOk(s, id);
    var s' := Advanced(s, id, signed);
    if !Finished(r.pc) {
      MoveKeepsInv(s, s', id, r, s'.requests[id].pc);
    }
  }

  lemma StartKeepsInv(s: State, e: Event)
    requires Inv(s) && e.Start?
    ensures Inv(Step(s, e))
  {
    var s' := Step(s, e);
    assert s.nextId !in s.requests by { assert s.nextId in s.requests ==> RequestOk(s, s.nextId); }
    forall k ensures KeyOk(s', k) {
      assert KeyOk(s, k);
      assert Grants(s', k) == Grants(s, k) && Inserted(s', k) == Inserted(s, k) && RowsUnder(s', k) == RowsUnder(s, k);
    }
    forall i | i in s'.requests ensures RequestOk(s', i) { assert i != s.nextId ==> RequestOk(s, i); }
  }

  lemma StepKeepsInv(s: State, e: Event)
    requires Inv(s)
    ensures Inv(Step(s, e))
  {
    hide KeyOk, Inv;
    match e
    case Start(_, _, _) => StartKeepsInv(s, e);
    case Advance(id, signed) => if id in s.requests { AdvanceKeepsInv(s, id, signed); }
    case Crash(id) =>
      if id in s.requests && !Finished(s.requests[id].pc) {
        CrashKeepsInv(s, id);
      }
  }

  lemma CrashKeepsInv(s: State, id: Id)
    requires Inv(s) && id in s.requests && !Finished(s.requests[id].pc)
    ensures Inv(Step(s, Crash(id)))
  {
    hide KeyOk;
    assert RequestOk(s, id);
    MoveKeepsInv(s, Step(s, Crash(id)), id, s.requests[id], Crashed(Granted(s.requests[id].pc)));
  }

  lemma {:induction false} RunKeepsInv(events: seq<Event>)
    ensures Inv(Run(Init, events))
  {
    if events == [] {
      forall k ensures KeyOk(Init, k) {
        assert Grants(Init, k) == {} && Inserted(Init, k) == {} && RowsUnder(Init, k) == {};
      }
    } else {
      RunKeepsInv(events[..|events| - 1]);
      StepKeepsInv(Run(Init, events[..|events| - 1]), events[|events| - 1]);
    }
  }

  // ----- who shares a counter

  /** The instant lies in UTC day number `day`. */
  predicate InDay(ms: int, day: int) {
    86_400_000 * day <= ms < 86_400_000 * (day + 1)
  }

  lemma DayIs(ms: int, day: int)
    ensures UtcDay(ms) == day <==> InDay(ms, day)
  {
  }

  ghost predicate SameDay(ms: int, ms': int) {
    exists day :: InDay(ms, day) && InDay(ms', day)
  }

  /** Two requests use one counter exactly for one policy, one wallet up to letter case, and one UTC day. */
  lemma SameKeyIff(wallet: string, policyId: string, ms: int, wallet': string, policyId': string, ms': int)
    ensures QuotaKey(wallet, policyId, ms) == QuotaKey(wallet', policyId', ms')
       <==> policyId == policyId' && SameLetters(wallet, wallet') && SameDay(ms, ms')
  {
    hide InDay, ToLower, SameLetters, UtcDay;
    FoldedEqualIffSameLetters(wallet, wallet');
    DayIs(ms, UtcDay(ms));
    DayIs(ms', UtcDay(ms'));
    if day :| InDay(ms, day) && InDay(ms', day) {
      DayIs(ms, day);
      DayIs(ms', day);
    }
  }

  /** What a wallet has used of a policy on the day of the instant. */
  function Used(usage: Usage, wallet: string, policyId: string, ms: int): nat {
    var k := QuotaKey(wallet, policyId, ms);
    if k in usage then usage[k] else 0
  }

  /** One use of one key counts for whoever shares it, and for nobody else. */
  lemma UseCounts(usage: Usage, wallet: string, policyId: string, ms: int, n: nat,
                  wallet': string, policyId': string, ms': int)
    ensures var after := usage[QuotaKey(wallet, policyId, ms) := n];
            Used(after, wallet', policyId', ms')
            == if policyId == policyId' && SameLetters(wallet, wallet') && SameDay(ms, ms') then n
               else Used(usage, wallet', policyId', ms')
  {
    SameKeyIff(wallet, policyId, ms, wallet', policyId', ms');
    hide QuotaKey, SameLetters, SameDay;
  }

  /** Sharing a key is sharing its count. */
  lemma SharedUse(usage: Usage, wallet: string, policyId: string, ms: int, wallet': string, ms': int)
    requires SameLetters(wallet, wallet') && SameDay(ms, ms')
    ensures Used(usage, wallet', policyId, ms') == Used(usage, wallet, policyId, ms)
  {
    SameKeyIff(wallet, policyId, ms, wallet', policyId, ms');
    hide QuotaKey, SameLetters, SameDay;
  }

  /** The counter of one wallet, policy and day. */
  ghost function KeyOn(wallet: string, policyId: string, day: int): Key {
    QuotaKey(wallet, policyId, 86_400_000 * day)
  }

  lemma KeyOnIff(wallet: string, policyId: string, ms: int, wallet': string, policyId': string, day: int)
    ensures QuotaKey(wallet, policyId, ms) == KeyOn(wallet', policyId', day)
       <==> policyId == policyId' && SameLetters(wallet, wallet') && InDay(ms, day)
  {
    hide ToLower, SameLetters, UtcDay;
    FoldedEqualIffSameLetters(wallet, wallet');
    DayIs(ms, day);
    DayIs(86_400_000 * day, day);
  }

  /** The requests of a run, in the order of their ids. */
  function Starts(events: seq<Event>): (starts: seq<Event>)
    ensures forall i :: 0 <= i < |starts| ==> starts[i].Start? && starts[i] in events
  {
    if events == [] then []
    else
      var last := events[|events| - 1];
      Starts(events[..|events| - 1]) + if last.Start? then [last] else []
  }

  /** A request of this wallet, under this policy, on this day. */
  predicate Asks(e: Event, wallet: string, policyId: string, day: int) {
    e.Start? && e.policy.id == policyId && SameLetters(e.wallet, wallet) && InDay(e.ms, day)
  }

  ghost function Asked(events: seq<Event>, wallet: string, policyId: string, day: int): set<Id> {
    set i | 0 <= i < |Starts(events)| && Asks(Starts(events)[i], wallet, policyId, day)
  }

  /** Every such request reads a quota of at most q, or of exactly q. */
  predicate QuotaAtMost(events: seq<Event>, wallet: string, policyId: string, day: int, q: int) {
    forall e :: e in events && Asks(e, wallet, policyId, day) ==> e.policy.dailyQuota <= q
  }

  predicate QuotaIs(events: seq<Event>, wallet: string, policyId: string, day: int, q: int) {
    forall e :: e in events && Asks(e, wallet, policyId, day) ==> e.policy.dailyQuota == q
  }

  ghost function GrantedOf(s: State, ids: set<Id>): set<Id> {
    set i | i in ids && i in s.requests && Granted(s.requests[i].pc)
  }

  ghost function RefusedOf(s: State, ids: set<Id>): set<Id> {
    set i | i in ids && i in s.requests && s.requests[i].pc == QuotaExceeded
  }

  ghost function InFlightOf(s: State, ids: set<Id>): set<Id> {
    set i | i in ids && i in s.requests && (s.requests[i].pc.Signing? || s.requests[i].pc.Inserting?)
  }

  ghost function AbortedOf(s: State, ids: set<Id>): set<Id> {
    set i | i in ids && i in s.requests
            && (s.requests[i].pc.SigningFailed? || s.requests[i].pc.Duplicate? || s.requests[i].pc == Crashed(true))
  }

  ghost function RowsOf(s: State, ids: set<Id>): set<UserOpHash> {
    set h | h in s.rows && s.rows[h].id in ids
  }

  /** Request `i` is the i-th Start event, under that event's key and quota. */
  ghost predicate StartedBy(s: State, i: Id, e: Event) {
    && e.Start? && i in s.requests
    && s.requests[i].key == QuotaKey(e.wallet, e.policy.id, e.ms) && s.requests[i].quota == e.policy.dailyQuota
  }

  lemma {:induction false} RequestsAreStarts(events: seq<Event>)
    ensures var s, starts := Run(Init, events), Starts(events);
            && s.nextId == |starts| && (forall i :: i in s.requests ==> i < |starts|)
            && forall i :: 0 <= i < |starts| ==> StartedBy(s, i, starts[i])
  {
    if events == [] {
    } else {
      var front, e := events[..|events| - 1], events[|events| - 1];
      RequestsAreStarts(front);
      var s := Run(Init, front);
      hide QuotaKey;
      forall i | i in s.requests ensures SameOrder(s, Step(s, e), i) {
        OrdersKept(s, e, i);
      }
    }
  }

  /** Every row is owned by the request that was sponsored under its hash, and bears its key. */
  ghost predicate RowOwned(s: State, h: UserOpHash)
    requires h in s.rows
  {
    var row := s.rows[h];
    row.id in s.requests && s.requests[row.id].pc == Sponsored(h) && s.requests[row.id].key == row.key
  }

  lemma {:induction false} RowsAreOwned(events: seq<Event>)
    ensures var s := Run(Init, events); forall h :: h in s.rows ==> RowOwned(s, h)
  {
    if events == [] {
    } else {
      var front, e := events[..|events| - 1], events[|events| - 1];
      RowsAreOwned(front);
      RequestsAreStarts(front);
      var s := Run(Init, front);
      assert Run(Init, events) == Step(s, e);
      hide Run, Step;
      StepKeepsOwners(s, e);
    }
  }

  lemma StepKeepsOwners(s: State, e: Event)
    requires (forall i :: i in s.requests ==> i < s.nextId) && forall h :: h in s.rows ==> RowOwned(s, h)
    ensures var s' := Step(s, e); forall h :: h in s'.rows ==> RowOwned(s', h)
  {
    hide QuotaKey, Upserted, UnderQuota;
    var s' := Step(s, e);
    forall h | h in s'.rows ensures RowOwned(s', h) {
      assert h in s.rows ==> RowOwned(s, h);
    }
  }

  /** The sets counted by key are those of the requests asked for. */
  lemma KeyedIsAsked(events: seq<Event>, wallet: string, policyId: string, day: int)
    ensures var s, k, ids := Run(Init, events), KeyOn(wallet, policyId, day), Asked(events, wallet, policyId, day);
            && (forall i :: i in s.requests ==> (s.requests[i].key == k <==> i in ids))
            && Grants(s, k) == GrantedOf(s, ids) && Refusals(s, k) == RefusedOf(s, ids)
            && InFlight(s, k) == InFlightOf(s, ids) && Aborted(s, k) == AbortedOf(s, ids)
            && RowsUnder(s, k) == RowsOf(s, ids)
  {
    var s, k := Run(Init, events), KeyOn(wallet, policyId, day);
    var ids := Asked(events, wallet, policyId, day);
    RequestsAreStarts(events);
    RowsAreOwned(events);
    hide Run, KeyOn, QuotaKey;
    forall i | i in s.requests ensures s.requests[i].key == k <==> i in ids {
      var e := Starts(events)[i];
      assert StartedBy(s, i, e);
      KeyOnIff(e.wallet, e.policy.id, e.ms, wallet, policyId, day);
    }
    forall h | h in s.rows ensures h in RowsUnder(s, k) <==> h in RowsOf(s, ids) {
      assert RowOwned(s, h);
    }
  }

  /** The quotas of the requests asked for are those their events carried. */
  lemma QuotasAreAsked(events: seq<Event>, wallet: string, policyId: string, day: int, i: Id)
    requires i in Run(Init, events).requests && Run(Init, events).requests[i].key == KeyOn(wallet, policyId, day)
    ensures i < |Starts(events)|
    ensures var e := Starts(events)[i];
            Asks(e, wallet, policyId, day) && e in events && Run(Init, events).requests[i].quota == e.policy.dailyQuota
  {
    RequestsAreStarts(events);
    KeyedIsAsked(events, wallet, policyId, day);
    assert StartedBy(Run(Init, events), i, Starts(events)[i]);
  }

  // ----- theorems over every run

  function AtLeastZero(n: int): nat {
    if n < 0 then 0 else n
  }

  function Min(m: nat, n: nat): nat {
    if m <= n then m else n
  }

  /**
   * For one wallet, policy and UTC day, with every request reading the same daily quota q: after n completed
   * conditional updates exactly min(n, q) were granted, and the stored counter says so.
   */
  lemma GrantsAreMinOfAttemptsAndQuota(events: seq<Event>, wallet: string, policyId: string, day: int, q: int)
    requires QuotaIs(events, wallet, policyId, day, q)
    ensures var s, ids := Run(Init, events), Asked(events, wallet, policyId, day);
            var n := |GrantedOf(s, ids)| + |RefusedOf(s, ids)|;
            && GrantedOf(s, ids) !! RefusedOf(s, ids)
            && OpsCount(s, KeyOn(wallet, policyId, day)) == |GrantedOf(s, ids)| == Min(n, AtLeastZero(q))
  {
    var s, k := Run(Init, events), KeyOn(wallet, policyId, day);
    RunKeepsInv(events);
    KeyedIsAsked(events, wallet, policyId, day);
    GrantsWithinQuota(events, wallet, policyId, day, q);
    forall i | i in s.requests && s.requests[i].key == k ensures s.requests[i].quota == q {
      QuotasAreAsked(events, wallet, policyId, day, i);
    }
    hide Run, KeyOn, GrantedOf, RefusedOf, Asked, Inv;
    GrantsAreMin(s, k, q);
  }

  lemma GrantsAreMin(s: State, k: Key, q: int)
    requires Inv(s) && OpsCount(s, k) <= AtLeastZero(q)
    requires forall i :: i in s.requests && s.requests[i].key == k ==> s.requests[i].quota == q
    ensures Grants(s, k) !! Refusals(s, k)
    ensures OpsCount(s, k) == |Grants(s, k)| == Min(|Grants(s, k)| + |Refusals(s, k)|, AtLeastZero(q))
  {
    assert KeyOk(s, k);
    GrantedNotRefused(s, k);
    hide KeyOk, Grants;
    if i :| i in Refusals(s, k) {
      assert RequestOk(s, i);
    } else {
      assert Refusals(s, k) == {};
    }
  }

  lemma GrantedNotRefused(s: State, k: Key)
    ensures Grants(s, k) !! Refusals(s, k)
  {
  }

  /** The counter never exceeds the largest quota any such request reads. */
  lemma GrantsWithinQuota(events: seq<Event>, wallet: string, policyId: string, day: int, q: int)
    requires QuotaAtMost(events, wallet, policyId, day, q)
    ensures OpsCount(Run(Init, events), KeyOn(wallet, policyId, day)) <= AtLeastZero(q)
  {
    var s, k := Run(Init, events), KeyOn(wallet, policyId, day);
    forall i | i in s.requests && s.requests[i].key == k ensures s.requests[i].quota <= AtLeastZero(q) {
      QuotasAreAsked(events, wallet, policyId, day, i);
    }
    CounterWithinQuotas(events, k, AtLeastZero(q));
  }

  lemma {:induction false} CounterWithinQuotas(events: seq<Event>, k: Key, q: nat)
    requires forall i :: i in Run(Init, events).requests && Run(Init, events).requests[i].key == k
                     ==> Run(Init, events).requests[i].quota <= q
    ensures OpsCount(Run(Init, events), k) <= q
  {
    if events == [] {
    } else {
      var front, e := events[..|events| - 1], events[|events| - 1];
      var s := Run(Init, front);
      RequestsAreStarts(front);
      forall i | i in s.requests && s.requests[i].key == k ensures s.requests[i].quota <= q {
        OrdersKept(s, e, i);
        assert SameOrder(s, Run(Init, events), i);
      }
      CounterWithinQuotas(front, k, q);
      CountStep(s, e, k);
    }
  }

  ghost predicate SameOrder(s: State, s': State, i: Id)
    requires i in s.requests
  {
    i in s'.requests && s'.requests[i].key == s.requests[i].key && s'.requests[i].quota == s.requests[i].quota
  }

  lemma OrdersKept(s: State, e: Event, i: Id)
    requires i in s.requests && i < s.nextId
    ensures SameOrder(s, Step(s, e), i)
  {
  }

  /** A counter only grows by one at a time, under some request's own quota. */
  lemma CountStep(s: State, e: Event, k: Key)
    ensures var s' := Step(s, e);
            || OpsCount(s', k) == OpsCount(s, k)
            || (exists i :: i in s.requests && s.requests[i].key == k && OpsCount(s, k) < s.requests[i].quota
                            && OpsCount(s', k) == OpsCount(s, k) + 1)
  {
  }

  /**
   * Conservation: the counter of a wallet, policy and day is the rows inserted for its requests, plus granted
   * requests still in flight, plus granted requests that aborted.
   */
  lemma SponsorshipConservation(events: seq<Event>, wallet: string, policyId: string, day: int)
    ensures var s, ids := Run(Init, events), Asked(events, wallet, policyId, day);
            OpsCount(s, KeyOn(wallet, policyId, day)) == |RowsOf(s, ids)| + |InFlightOf(s, ids)| + |AbortedOf(s, ids)|
  {
    RunKeepsInv(events);
    KeyedIsAsked(events, wallet, policyId, day);
    hide Run, KeyOn;
    var s, k := Run(Init, events), KeyOn(wallet, policyId, day);
    assert KeyOk(s, k);
    GrantsSplit(s, k);
  }

  lemma GrantsSplit(s: State, k: Key)
    ensures |Grants(s, k)| == |Inserted(s, k)| + |InFlight(s, k)| + |Aborted(s, k)|
  {
    var inserted, inFlight, aborted := Inserted(s, k), InFlight(s, k), Aborted(s, k);
    assert Grants(s, k) == inserted + inFlight + aborted;
    assert inserted !! inFlight && (inserted + inFlight) !! aborted;
    hide Inserted, InFlight, Aborted, Grants;
    DisjointSize(inserted, inFlight);
    DisjointSize(inserted + inFlight, aborted);
  }

  lemma DisjointSize(a: set<Id>, b: set<Id>)
    requires a !! b
    ensures |a + b| == |a| + |b|
  {
  }

  /** Rows sponsored for one wallet under one policy in one UTC day never exceed the daily quota. */
  lemma RowsWithinQuota(events: seq<Event>, wallet: string, policyId: string, day: int, q: int)
    requires QuotaAtMost(events, wallet, policyId, day, q)
    ensures |RowsOf(Run(Init, events), Asked(events, wallet, policyId, day))| <= AtLeastZero(q)
  {
    SponsorshipConservation(events, wallet, policyId, day);
    GrantsWithinQuota(events, wallet, policyId, day, q);
  }

  /** No two sponsored requests share a userOpHash, and each owns the row stored under it. */
  lemma HashesAreUnique(events: seq<Event>, i: Id, j: Id)
    requires i in Run(Init, events).requests && j in Run(Init, events).requests
    requires Run(Init, events).requests[i].pc.Sponsored?
        && Run(Init, events).requests[i].pc == Run(Init, events).requests[j].pc
    ensures i == j
  {
    RunKeepsInv(events);
    assert RequestOk(Run(Init, events), i) && RequestOk(Run(Init, events), j);
  }

  /** Another request was sponsored under the hash. */
  ghost predicate Taken(s: State, hash: UserOpHash) {
    exists j :: j in s.requests && s.requests[j].pc == Sponsored(hash)
  }

  /** A signed request that goes on is sponsored, unless another request already was under its hash. */
  lemma InsertSucceedsUnlessTaken(events: seq<Event>, id: Id, hash: UserOpHash)
    requires id in Run(Init, events).requests && Run(Init, events).requests[id].pc == Inserting(hash)
    ensures var s, s' := Run(Init, events), Run(Init, events + [Advance(id, None)]);
            && id in s'.requests
            && s'.requests[id].pc == (if Taken(s, hash) then Duplicate else Sponsored(hash))
            && s'.rows.Keys == s.rows.Keys + if Taken(s, hash) then {} else {hash}
  {
    var s, e := Run(Init, events), Advance(id, None);
    RunKeepsInv(events);
    RowsAreOwned(events);
    RunMore(events, e);
    hide Run;
    assert hash in s.rows ==> RowOwned(s, hash);
    if j :| j in s.requests && s.requests[j].pc == Sponsored(hash) {
      assert RequestOk(s, j);
    }
  }

  lemma RunMore(events: seq<Event>, e: Event)
    ensures Run(Init, events + [e]) == Step(Run(Init, events), e)
  {
    assert (events + [e])[..|events|] == events;
  }

  // ----- the quota can be used up

  /** One request from its Start to its row, if the quota and the hash let it through. */
  function Whole(id: Id, wallet: string, policy: Policy, ms: int, hash: UserOpHash): seq<Event> {
    [Start(wallet, policy, ms), Advance(id, None), Advance(id, None), Advance(id, Some(hash)), Advance(id, None)]
  }

  function OneByOne(wallet: string, policy: Policy, ms: int, hashes: seq<UserOpHash>): seq<Event> {
    if hashes == [] then []
    else
      var n := |hashes| - 1;
      OneByOne(wallet, policy, ms, hashes[..n]) + Whole(n, wallet, policy, ms, hashes[n])
  }

  predicate Distinct(hashes: seq<UserOpHash>) {
    forall i, j :: 0 <= i < j < |hashes| ==> hashes[i] != hashes[j]
  }

  /** The run so far with request `id` alone at another point, under key k. */
  ghost predicate At(s: State, s': State, id: Id, k: Key, quota: int, pc: Pc) {
    && s'.nextId == id + 1 && s'.requests == s.requests[id := Request(k, quota, pc)]
  }

  lemma AdvanceOne(s: State, s': State, id: Id, k: Key, quota: int, pc: Pc, signed: Option<UserOpHash>)
    requires At(s, s', id, k, quota, pc)
    ensures var s'' := Step(s', Advance(id, signed)); s'' == Advanced(s', id, signed) && id in s''.requests
    ensures var s'' := Step(s', Advance(id, signed)); At(s, s'', id, k, quota, s''.requests[id].pc)
  {
  }

  lemma WholeRequest(s: State, wallet: string, policy: Policy, ms: int, hash: UserOpHash) returns (s': State)
    requires s.nextId !in s.requests && hash !in s.rows
    ensures var es := Whole(s.nextId, wallet, policy, ms, hash);
            s' == Step(Step(Step(Step(Step(s, es[0]), es[1]), es[2]), es[3]), es[4])
    ensures var k := QuotaKey(wallet, policy.id, ms);
            && s'.nextId == s.nextId + 1 && s'.requests.Keys == s.requests.Keys + {s.nextId}
            && if OpsCount(s, k) < policy.dailyQuota
               then OpsCount(s', k) == OpsCount(s, k) + 1 && s'.rows == s.rows[hash := RowRef(s.nextId, k)]
               else OpsCount(s', k) == OpsCount(s, k) && s'.rows == s.rows
  {
    var id, k, quota := s.nextId, QuotaKey(wallet, policy.id, ms), policy.dailyQuota;
    hide QuotaKey;
    var es := Whole(id, wallet, policy, ms, hash);
    var s1 := Step(s, es[0]);
    assert At(s, s1, id, k, quota, Upserting);
    hide Step, At;
    var s2 := Step(s1, es[1]);
    AdvanceOne(s, s1, id, k, quota, Upserting, None);
    var s3 := Step(s2, es[2]);
    AdvanceOne(s, s2, id, k, quota, Consuming, None);
    var s4 := Step(s3, es[3]);
    AdvanceOne(s, s3, id, k, quota, s3.requests[id].pc, Some(hash));
    s' := Step(s4, es[4]);
    AdvanceOne(s, s4, id, k, quota, s4.requests[id].pc, None);
  }

  lemma RunWhole(events: seq<Event>, es: seq<Event>)
    requires |es| == 5
    ensures Run(Init, events + es) == Step(Step(Step(Step(Step(Run(Init, events), es[0]), es[1]), es[2]), es[3]), es[4])
  {
    hide Run, Step;
    assert es == [es[0]] + [es[1]] + [es[2]] + [es[3]] + [es[4]];
    RunMore(events, es[0]);
    RunMore(events + [es[0]], es[1]);
    RunMore(events + [es[0]] + [es[1]], es[2]);
    RunMore(events + [es[0]] + [es[1]] + [es[2]], es[3]);
    RunMore(events + [es[0]] + [es[1]] + [es[2]] + [es[3]], es[4]);
    assert events + es == events + [es[0]] + [es[1]] + [es[2]] + [es[3]] + [es[4]];
  }

  /** What requests that came one after the other leave behind. */
  ghost predicate UsedUp(s: State, k: Key, quota: int, hashes: seq<UserOpHash>) {
    && s.nextId == |hashes| && (forall i :: i in s.requests ==> i < |hashes|)
    && OpsCount(s, k) == |s.rows| == Min(|hashes|, AtLeastZero(quota))
    && (forall h :: h in s.rows ==> h in hashes)
  }

  lemma OneMoreUse(s: State, wallet: string, policy: Policy, ms: int, hashes: seq<UserOpHash>, hash: UserOpHash)
    returns (s': State)
    requires UsedUp(s, QuotaKey(wallet, policy.id, ms), policy.dailyQuota, hashes) && hash !in hashes
    ensures var es := Whole(|hashes|, wallet, policy, ms, hash);
            s' == Step(Step(Step(Step(Step(s, es[0]), es[1]), es[2]), es[3]), es[4])
    ensures UsedUp(s', QuotaKey(wallet, policy.id, ms), policy.dailyQuota, hashes + [hash])
  {
    hide QuotaKey, Step, OpsCount, Whole, UsedUp;
    FreshAfter(s, QuotaKey(wallet, policy.id, ms), policy.dailyQuota, hashes, hash);
    s' := WholeRequest(s, wallet, policy, ms, hash);
    UsedUpNext(s, s', QuotaKey(wallet, policy.id, ms), policy.dailyQuota, hashes, hash);
  }

  lemma FreshAfter(s: State, k: Key, quota: int, hashes: seq<UserOpHash>, hash: UserOpHash)
    requires UsedUp(s, k, quota, hashes) && hash !in hashes
    ensures s.nextId == |hashes| && s.nextId !in s.requests && hash !in s.rows
  {
  }

  lemma UsedUpNext(s: State, s': State, k: Key, quota: int, hashes: seq<UserOpHash>, hash: UserOpHash)
    requires UsedUp(s, k, quota, hashes) && hash !in s.rows
    requires s'.nextId == s.nextId + 1 && s'.requests.Keys == s.requests.Keys + {s.nextId}
    requires if OpsCount(s, k) < quota
             then OpsCount(s', k) == OpsCount(s, k) + 1 && s'.rows == s.rows[hash := RowRef(s.nextId, k)]
             else OpsCount(s', k) == OpsCount(s, k) && s'.rows == s.rows
    ensures UsedUp(s', k, quota, hashes + [hash])
  {
    hide OpsCount;
  }

  /** Requests that come one after the other, each with its own hash, use the quota up to the last row. */
  lemma {:induction false} QuotaCanBeUsedUp(wallet: string, policy: Policy, ms: int, hashes: seq<UserOpHash>)
    requires Distinct(hashes)
    ensures var s, k := Run(Init, OneByOne(wallet, policy, ms, hashes)), QuotaKey(wallet, policy.id, ms);
            UsedUp(s, k, policy.dailyQuota, hashes)
  {
    hide QuotaKey;
    if hashes == [] {
      assert Run(Init, []) == Init;
    } else {
      var n := |hashes| - 1;
      var events, es := OneByOne(wallet, policy, ms, hashes[..n]), Whole(n, wallet, policy, ms, hashes[n]);
      assert OneByOne(wallet, policy, ms, hashes) == events + es;
      assert hashes == hashes[..n] + [hashes[n]] && hashes[n] !in hashes[..n];
      hide Step, Run, UsedUp, OneByOne, Whole;
      QuotaCanBeUsedUp(wallet, policy, ms, hashes[..n]);
      var s' := OneMoreUse(Run(Init, events), wallet, policy, ms, hashes[..n], hashes[n]);
      RunWhole(events, es);
    }
  }

  // ----- the two stores

  datatype QuotaError = QuotaExceededError

  class SponsorBackend {
    var usage: Usage
    var requests: map<Id, Request>
    var nextId: Id
    var rows: map<UserOpHash, RowRef>

    ghost function Abstract(): State
      reads this
    {
      State(usage, requests, nextId, rows)
    }

    constructor ()
      ensures Abstract() == Init
    {
      usage, requests, nextId, rows := map[], map[], 0, map[];
    }

    /** `walletQuotaUsage.upsert` */
    method Upsert(k: Key)
      modifies this`usage
      ensures usage == Upserted(old(usage), k)
    {
      if k !in usage {
        usage := usage[k := 0];
      }
    }

    /** `walletQuotaUsage.updateMany` with `opsCount < quota`: the number of rows it touched. */
    method IncrementBelow(k: Key, quota: int) returns (count: nat)
      modifies this`usage
      ensures count == if UnderQuota(old(usage), k, quota) then 1 else 0
      ensures usage == if count == 1 then old(usage)[k := old(usage)[k] + 1] else old(usage)
    {
      count := 0;
      if k in usage && usage[k] < quota {
        usage := usage[k := usage[k] + 1];
        count := 1;
      }
    }

    /** `checkAndConsumeQuota` with nothing in between: one use of this key, or a refusal at the quota. */
    method CheckAndConsumeQuota(wallet: string, policy: Policy, ms: int) returns (r: Result<(), QuotaError>)
      modifies this`usage
      ensures r.Ok? <==> Used(old(usage), wallet, policy.id, ms) < policy.dailyQuota
      ensures forall w, p, t :: Used(usage, w, p, t) == Used(old(usage), w, p, t)
                + if r.Ok? && p == policy.id && SameLetters(wallet, w) && SameDay(ms, t) then 1 else 0
      ensures usage.Keys == old(usage).Keys + {QuotaKey(wallet, policy.id, ms)}
    {
      ghost var used := Used(usage, wallet, policy.id, ms);
      hide QuotaKey, SameLetters, SameDay;
      var k := QuotaKey(wallet, policy.id, ms);
      Upsert(k);
      var count := IncrementBelow(k, policy.dailyQuota);
      forall w, p, t
        ensures Used(usage, w, p, t) == Used(old(usage), w, p, t)
                  + if count == 1 && p == policy.id && SameLetters(wallet, w) && SameDay(ms, t) then 1 else 0
      {
        UseCounts(old(usage), wallet, policy.id, ms, used + count, w, p, t);
        assert usage == old(usage)[k := used + count];
        if p == policy.id && SameLetters(wallet, w) && SameDay(ms, t) {
          SharedUse(old(usage), wallet, p, ms, w, t);
        }
      }
      if count == 0 {
        return Err(QuotaExceededError);
      }
      return Ok(());
    }

    method Execute(e: Event)
      modifies this
      ensures Abstract() == Step(old(Abstract()), e)
    {
      match e {
        case Start(wallet, policy, ms) =>
          requests := requests[nextId := Request(QuotaKey(wallet, policy.id, ms), policy.dailyQuota, Upserting)];
          nextId := nextId + 1;
        case Advance(id, signed) =>
          if id in requests {
            AdvanceRequest(id, signed);
          }
        case Crash(id) =>
          if id in requests && !Finished(requests[id].pc) {
            requests := requests[id := requests[id].(pc := Crashed(Granted(requests[id].pc)))];
          }
      }
    }

    method AdvanceRequest(id: Id, signed: Option<UserOpHash>)
      requires id in requests
      modifies this
      ensures Abstract() == Advanced(old(Abstract()), id, signed)
    {
      var r := requests[id];
      match r.pc {
        case Upserting =>
          Upsert(r.key);
          requests := requests[id := r.(pc := Consuming)];
        case Consuming =>
          var count := IncrementBelow(r.key, r.quota);
          requests := requests[id := r.(pc := if count == 0 then QuotaExceeded else Signing)];
        case Signing =>
          requests := requests[id := r.(pc := if signed.Some? then Inserting(signed.value) else SigningFailed)];
        case Inserting(hash) =>
          if hash in rows {
            requests := requests[id := r.(pc := Duplicate)];
          } else {
            rows := rows[hash := RowRef(id, r.key)];
            requests := requests[id := r.(pc := Sponsored(hash))];
          }
        case _ =>
      }
    }
  }
}
