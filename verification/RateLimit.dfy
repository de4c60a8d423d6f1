/** rate-limit.guard.ts: fixed-window counters in Redis, an IP tier and a wallet tier, over timed traces. */
module RateLimit {
  import opened Wrappers
  import opened Policies

  /** A Redis counter; a key that INCR created but EXPIRE did not reach would have no expiry. Times are in ms. */
  datatype Counter = Counter(count: nat, expiresAt: Option<nat>)

  type Store = map<string, Counter>

  predicate Live(c: Option<Counter>, now: nat) {
    c.Some? && (c.value.expiresAt.Some? ==> now < c.value.expiresAt.value)
  }

  function Lookup(store: Store, key: string): Option<Counter> {
    if key in store then Some(store[key]) else None
  }

  /** INCR: a missing or expired key starts from zero, without expiry. */
  function Incr(c: Option<Counter>, now: nat): Counter {
    if Live(c, now) then c.value.(count := c.value.count + 1) else Counter(1, None)
  }

  /** The Lua script as one atomic step: EXPIRE only when INCR returned 1. */
  function Script(c: Option<Counter>, windowSeconds: nat, now: nat): Counter {
    var current := Incr(c, now);
    if current.count == 1 then current.(expiresAt := Some(now + 1000 * windowSeconds)) else current
  }

  // ----- one key over time

  predicate Sorted(ts: seq<nat>) {
    forall i, j :: 0 <= i < j < |ts| ==> ts[i] <= ts[j]
  }

  function Flag(b: bool): nat {
    if b then 1 else 0
  }

  /** Hits at times `ts`, counter `c` to begin with: how many of those in [from, to) are admitted. */
  function AdmittedIn(c: Option<Counter>, ts: seq<nat>, seconds: nat, max: nat, from: nat, to: nat): nat
    decreases |ts|
  {
    if ts == [] then 0
    else
      var c' := Script(c, seconds, ts[0]);
      Flag(c'.count <= max && from <= ts[0] < to) + AdmittedIn(Some(c'), ts[1..], seconds, max, from, to)
  }

  function HitsIn(ts: seq<nat>, from: nat, to: nat): nat {
    if ts == [] then 0 else Flag(from <= ts[0] < to) + HitsIn(ts[1..], from, to)
  }

  /** A counter the script left behind: it counts at least one hit and it expires. */
  predicate Scripted(c: Option<Counter>) {
    c.Some? ==> c.value.count >= 1 && c.value.expiresAt.Some?
  }

  function Min(m: nat, n: nat): nat {
    if m <= n then m else n
  }

  /** What is left of a limit after `count` hits. */
  function Left(max: nat, count: nat): nat {
    if count < max then max - count else 0
  }

  lemma {:induction false} NothingAfter(c: Option<Counter>, ts: seq<nat>, seconds: nat, max: nat, from: nat, to: nat)
    requires Sorted(ts) && (ts != [] ==> to <= ts[0])
    ensures AdmittedIn(c, ts, seconds, max, from, to) == 0 && HitsIn(ts, from, to) == 0
    decreases |ts|
  {
    if ts != [] {
      NothingAfter(Some(Script(c, seconds, ts[0])), ts[1..], seconds, max, from, to);
    }
  }

  /** Inside a live window the script admits the next hits until the limit, refused ones never moving the expiry. */
  lemma {:induction false} LiveWindow(c: Counter, ts: seq<nat>, seconds: nat, max: nat, from: nat, to: nat)
    requires Sorted(ts) && Scripted(Some(c)) && c.expiresAt == Some(to) && (ts != [] ==> from <= ts[0])
    ensures AdmittedIn(Some(c), ts, seconds, max, from, to) == Min(HitsIn(ts, from, to), Left(max, c.count))
    decreases |ts|
  {
    if ts == [] {
    } else if ts[0] >= to {
      NothingAfter(Some(c), ts, seconds, max, from, to);
    } else {
      var c' := Script(Some(c), seconds, ts[0]);
      assert c' == Counter(c.count + 1, Some(to));
      LiveWindow(c', ts[1..], seconds, max, from, to);
    }
  }

  /** A window opened by a hit admits exactly min(hits in it, max), whatever came before. */
  lemma WindowAdmitsExactly(c: Option<Counter>, ts: seq<nat>, seconds: nat, max: nat)
    requires Sorted(ts) && ts != [] && !Live(c, ts[0]) && seconds > 0
    ensures var from, to := ts[0], ts[0] + 1000 * seconds;
            AdmittedIn(c, ts, seconds, max, from, to) == Min(HitsIn(ts, from, to), max)
  {
    var c' := Script(c, seconds, ts[0]);
    assert c' == Counter(1, Some(ts[0] + 1000 * seconds));
    LiveWindow(c', ts[1..], seconds, max, ts[0], ts[0] + 1000 * seconds);
  }

  /** How many hits in [from, from + W) a counter can still let through. */
  ghost function Allowance(c: Option<Counter>, max: nat, from: nat, to: nat): nat
    requires Scripted(c) && max > 0
  {
    if c.None? || c.value.expiresAt.value < from then 2 * max - 1
    else if c.value.expiresAt.value < to then Left(max, c.value.count) + max
    else Left(max, c.value.count)
  }

  /** Any interval one window long meets at most two windows, and misses the first hit of the earlier one. */
  lemma {:induction false} AllowanceHolds(c: Option<Counter>, ts: seq<nat>, seconds: nat, max: nat, from: nat)
    requires Sorted(ts) && Scripted(c) && max > 0 && seconds > 0
    ensures AdmittedIn(c, ts, seconds, max, from, from + 1000 * seconds)
        <= Allowance(c, max, from, from + 1000 * seconds)
    decreases |ts|
  {
    var to := from + 1000 * seconds;
    if ts == [] {
    } else if to <= ts[0] {
      NothingAfter(c, ts, seconds, max, from, to);
    } else {
      AllowanceHolds(Some(Script(c, seconds, ts[0])), ts[1..], seconds, max, from);
    }
  }

  /** No half-open interval of windowSeconds ever sees more than 2 max - 1 admitted requests of one key. */
  lemma SlidingBound(c: Option<Counter>, ts: seq<nat>, seconds: nat, max: nat, from: nat)
    requires Sorted(ts) && Scripted(c) && max > 0 && seconds > 0
    ensures AdmittedIn(c, ts, seconds, max, from, from + 1000 * seconds) <= 2 * max - 1
  {
    AllowanceHolds(c, ts, seconds, max, from);
  }

  /** The interval of one window from `from` on sees 2 max - 1 admitted hits. */
  predicate ReachesBound(ts: seq<nat>, seconds: nat, max: nat, from: nat) {
    AdmittedIn(None, ts, seconds, max, from, from + 1000 * seconds) == 2 * max - 1
  }

  function Repeat(t: nat, n: nat): seq<nat> {
    if n == 0 then [] else [t] + Repeat(t, n - 1)
  }

  lemma {:induction false} RepeatAdmitted(c: Counter, t: nat, n: nat, rest: seq<nat>, seconds: nat, max: nat,
                                          from: nat, to: nat)
    requires Live(Some(c), t) && c.count >= 1 && c.count + n <= max && from <= t < to
    ensures AdmittedIn(Some(c), Repeat(t, n) + rest, seconds, max, from, to)
         == n + AdmittedIn(Some(c.(count := c.count + n)), rest, seconds, max, from, to)
    decreases n
  {
    if n == 0 {
      assert Repeat(t, n) + rest == rest;
    } else {
      var c' := Script(Some(c), seconds, t);
      assert c' == c.(count := c.count + 1);
      RepeatAdmitted(c', t, n - 1, rest, seconds, max, from, to);
      assert (Repeat(t, n) + rest)[1..] == Repeat(t, n - 1) + rest;
    }
  }

  lemma {:induction false} RepeatSorted(t: nat, n: nat)
    ensures |Repeat(t, n)| == n && forall i :: 0 <= i < n ==> Repeat(t, n)[i] == t
  {
    if n > 0 {
      RepeatSorted(t, n - 1);
    }
  }

  /** One hit at zero, the rest of its limit at `t`, a full limit at `u`. */
  function Burst(t: nat, u: nat, max: nat): seq<nat>
    requires max > 0
  {
    [0] + (Repeat(t, max - 1) + ([u] + Repeat(u, max - 1)))
  }

  lemma BurstSorted(t: nat, u: nat, max: nat)
    requires max > 0 && t <= u
    ensures Sorted(Burst(t, u, max))
  {
    RepeatSorted(t, max - 1);
    RepeatSorted(u, max - 1);
  }

  /** A full limit at the moment a spent window ends. */
  lemma SecondWindow(w: nat, seconds: nat, max: nat, from: nat, to: nat)
    requires max > 0 && seconds > 0 && w == 1000 * seconds && from <= w < to
    ensures AdmittedIn(Some(Counter(max, Some(w))), [w] + Repeat(w, max - 1), seconds, max, from, to) == max
  {
    var d := Counter(1, Some(w + w));
    var second := [w] + Repeat(w, max - 1);
    assert Script(Some(Counter(max, Some(w))), seconds, w) == d && second[1..] == Repeat(w, max - 1) + [];
    RepeatAdmitted(d, w, max - 1, [], seconds, max, from, to);
  }

  /** The bound is reached: one hit opens a window, the rest of its limit comes at its end, a full limit right after. */
  lemma SlidingBoundIsReached(seconds: nat, max: nat)
    requires max > 0 && seconds > 0
    ensures exists ts: seq<nat>, from: nat :: Sorted(ts) && ReachesBound(ts, seconds, max, from)
  {
    hide Sorted;
    var w := 1000 * seconds;
    var from, to := w - 1, w - 1 + w;
    var ts := Burst(w - 1, w, max);
    BurstSorted(w - 1, w, max);
    var c, second := Counter(1, Some(w)), [w] + Repeat(w, max - 1);
    assert Script(None, seconds, 0) == c && ts[1..] == Repeat(w - 1, max - 1) + second;
    RepeatAdmitted(c, w - 1, max - 1, second, seconds, max, from, to);
    SecondWindow(w, seconds, max, from, to);
    assert ReachesBound(ts, seconds, max, from);
  }

  // ----- many keys

  /** One call of the script; keys of different tiers have different windows. */
  datatype Hit = Hit(key: string, seconds: nat, now: nat)

  function Scored(store: Store, hit: Hit): Counter {
    Script(Lookup(store, hit.key), hit.seconds, hit.now)
  }

  function Replay(store: Store, hits: seq<Hit>): Store
    decreases |hits|
  {
    if hits == [] then store else Replay(store[hits[0].key := Scored(store, hits[0])], hits[1..])
  }

  function AdmittedOf(store: Store, hits: seq<Hit>, max: nat, key: string, from: nat, to: nat): nat
    decreases |hits|
  {
    if hits == [] then 0
    else
      var c' := Scored(store, hits[0]);
      Flag(hits[0].key == key && c'.count <= max && from <= hits[0].now < to)
      + AdmittedOf(store[hits[0].key := c'], hits[1..], max, key, from, to)
  }

  function TimesOf(hits: seq<Hit>, key: string): seq<nat> {
    if hits == [] then []
    else (if hits[0].key == key then [hits[0].now] else []) + TimesOf(hits[1..], key)
  }

  predicate InOrder(hits: seq<Hit>) {
    forall i, j :: 0 <= i < j < |hits| ==> hits[i].now <= hits[j].now
  }

  /** Every hit of `key` opens windows of the same length, whatever the other keys do. */
  predicate HasWindow(hits: seq<Hit>, key: string, seconds: nat) {
    forall hit :: hit in hits && hit.key == key ==> hit.seconds == seconds
  }

  /** Keys do not interact: what is admitted of one key is decided by its own hits alone. */
  lemma {:induction false} KeysAreIndependent(store: Store, hits: seq<Hit>, seconds: nat, max: nat, key: string,
                                              from: nat, to: nat)
    requires HasWindow(hits, key, seconds)
    ensures AdmittedOf(store, hits, max, key, from, to)
         == AdmittedIn(Lookup(store, key), TimesOf(hits, key), seconds, max, from, to)
    decreases |hits|
  {
    if hits == [] {
    } else {
      assert hits[0] in hits;
      KeysAreIndependent(store[hits[0].key := Scored(store, hits[0])], hits[1..], seconds, max, key, from, to);
      if hits[0].key == key {
        assert TimesOf(hits, key) == [hits[0].now] + TimesOf(hits[1..], key);
        assert TimesOf(hits, key)[1..] == TimesOf(hits[1..], key);
      } else {
        assert TimesOf(hits, key) == TimesOf(hits[1..], key);
      }
    }
  }

  lemma {:induction false} TimesFrom(hits: seq<Hit>, key: string, low: nat)
    requires forall hit :: hit in hits ==> low <= hit.now
    ensures forall i :: 0 <= i < |TimesOf(hits, key)| ==> low <= TimesOf(hits, key)[i]
  {
    if hits != [] {
      TimesFrom(hits[1..], key, low);
      assert hits[0] in hits;
    }
  }

  lemma {:induction false} TimesSorted(hits: seq<Hit>, key: string)
    requires InOrder(hits)
    ensures Sorted(TimesOf(hits, key))
  {
    if hits == [] {
    } else {
      var tail := hits[1..];
      TimesSorted(tail, key);
      TimesFrom(tail, key, hits[0].now);
    }
  }

  /** Every counter of the store was left there by the script. */
  predicate Expiring(store: Store) {
    forall key :: key in store ==> Scripted(Some(store[key]))
  }

  /** The sliding bound holds for every key of every interleaved trace, from whatever counters came before. */
  lemma SlidingBoundPerKey(store: Store, hits: seq<Hit>, seconds: nat, max: nat, key: string, from: nat)
    requires max > 0 && seconds > 0 && Expiring(store) && InOrder(hits) && HasWindow(hits, key, seconds)
    ensures AdmittedOf(store, hits, max, key, from, from + 1000 * seconds) <= 2 * max - 1
  {
    KeysAreIndependent(store, hits, seconds, max, key, from, from + 1000 * seconds);
    TimesSorted(hits, key);
    SlidingBound(Lookup(store, key), TimesOf(hits, key), seconds, max, from);
  }

  /** No counter is ever left without an expiry. */
  lemma {:induction false} EveryCounterExpires(store: Store, hits: seq<Hit>)
    requires Expiring(store)
    ensures Expiring(Replay(store, hits))
    decreases |hits|
  {
    if hits != [] {
      EveryCounterExpires(store[hits[0].key := Scored(store, hits[0])], hits[1..]);
    }
  }

  lemma {:induction false} ReplayConcat(store: Store, a: seq<Hit>, b: seq<Hit>, max: nat, key: string, from: nat,
                                        to: nat)
    ensures AdmittedOf(store, a + b, max, key, from, to)
         == AdmittedOf(store, a, max, key, from, to) + AdmittedOf(Replay(store, a), b, max, key, from, to)
    decreases |a|
  {
    if a == [] {
      assert a + b == b;
    } else {
      assert (a + b)[1..] == a[1..] + b;
      ReplayConcat(store[a[0].key := Scored(store, a[0])], a[1..], b, max, key, from, to);
    }
  }

  // ----- the guard

  /** A parsed body; an array is an object whose fields are its indices. */
  datatype Json = Null | Str(s: string) | Scalar | Object(fields: map<string, Json>)

  /** `path.split('.')` */
  function SplitDots(path: string): (parts: seq<string>)
    ensures |parts| > 0
  {
    if path == "" then [""]
    else
      var rest := SplitDots(path[1..]);
      if path[0] == '.' then [""] + rest else [[path[0]] + rest[0]] + rest[1..]
  }

  /** The reduce over the path: undefined (None) as soon as a step is not an object or has no such field. */
  function Walk(value: Option<Json>, keys: seq<string>): Option<Json>
    decreases |keys|
  {
    if keys == [] then value
    else
      Walk(if value.Some? && value.value.Object? && keys[0] in value.value.fields
           then Some(value.value.fields[keys[0]]) else None, keys[1..])
  }

  function ExtractWallet(body: Option<Json>, path: string): Option<string> {
    match Walk(body, SplitDots(path))
    case Some(Str(s)) => Some(s)
    case _ => None
  }

  datatype Limits = Limits(ipMax: nat, ipSeconds: nat, walletMax: nat, walletSeconds: nat)

  datatype Tier = Ip | Wallet

  datatype Refusal = TooManyRequests(tier: Tier, max: nat, windowSeconds: nat)

  function IpKey(ip: string): string {
    "ratelimit:ip:" + ip
  }

  function WalletKey(wallet: string): string {
    "ratelimit:wallet:" + ToLower(wallet)
  }

  /** Two addresses share a counter exactly when they are equal. */
  lemma IpKeysAgreeIff(ip: string, ip': string)
    ensures IpKey(ip) == IpKey(ip') <==> ip == ip'
  {
    assert IpKey(ip)[13..] == ip && IpKey(ip')[13..] == ip';
  }

  /** Two wallets share a counter exactly when they are equal up to letter case. */
  lemma WalletKeysAgreeIff(wallet: string, wallet': string)
    ensures WalletKey(wallet) == WalletKey(wallet') <==> SameLetters(wallet, wallet')
  {
    assert WalletKey(wallet)[17..] == ToLower(wallet) && WalletKey(wallet')[17..] == ToLower(wallet');
    FoldedEqualIffSameLetters(wallet, wallet');
  }

  /** The tiers never share a counter. */
  lemma TiersAreSeparate(ip: string, wallet: string)
    ensures IpKey(ip) != WalletKey(wallet)
  {
    assert IpKey(ip)[10] == 'i' && WalletKey(wallet)[10] == 'w';
  }

  /** The wallet the guard will limit, if the route names a field and the body has a non-empty string there. */
  function LimitedWallet(body: Option<Json>, path: Option<string>): Option<string> {
    if path.Some? && path.value != "" && ExtractWallet(body, path.value).Some?
        && ExtractWallet(body, path.value).value != ""
    then ExtractWallet(body, path.value)
    else None
  }

  // ----- which wallet that is

  /** Dotted form of a path of field names. */
  function JoinDots(names: seq<string>): string
    requires names != []
  {
    if |names| == 1 then names[0] else names[0] + "." + JoinDots(names[1..])
  }

  /** Field names without a dot of their own. */
  predicate Dotless(names: seq<string>) {
    forall i :: 0 <= i < |names| ==> '.' !in names[i]
  }

  lemma DotlessTail(names: seq<string>)
    requires names != [] && Dotless(names)
    ensures Dotless(names[1..]) && '.' !in names[0]
  {
  }

  /** Splitting undoes joining... */
  lemma {:induction false} SplitUndoesJoin(names: seq<string>)
    requires names != [] && Dotless(names)
    ensures SplitDots(JoinDots(names)) == names
    decreases |names|, |names[0]|
  {
    var first, path := names[0], JoinDots(names);
    DotlessTail(names);
    if first == "" {
      if |names| > 1 {
        assert path[1..] == JoinDots(names[1..]);
        SplitUndoesJoin(names[1..]);
      }
    } else {
      var shorter := [first[1..]] + names[1..];
      assert path[0] == first[0] && first[0] in first;
      assert shorter[1..] == names[1..];
      assert path[1..] == JoinDots(shorter);
      SplitUndoesJoin(shorter);
      assert first == [first[0]] + first[1..] && names == [first] + names[1..];
    }
  }

  /** ... and joining undoes splitting. */
  lemma {:induction false} JoinUndoesSplit(path: string)
    ensures Dotless(SplitDots(path)) && JoinDots(SplitDots(path)) == path
  {
    if path != "" {
      var rest := SplitDots(path[1..]);
      JoinUndoesSplit(path[1..]);
      var parts := SplitDots(path);
      if path[0] == '.' {
        assert parts[1..] == rest;
      } else {
        assert parts[1..] == rest[1..];
        if |rest| == 1 {
          assert JoinDots(parts) == [path[0]] + rest[0];
        }
      }
      assert path == [path[0]] + path[1..];
    }
  }

  /** `nested` goes from the body inwards, each value the field of that name in the one before. */
  ghost predicate Nested(body: Json, names: seq<string>, nested: seq<Json>) {
    && |nested| == |names| + 1 && nested[0] == body
    && forall i :: 0 <= i < |names| ==>
         nested[i].Object? && names[i] in nested[i].fields && nested[i].fields[names[i]] == nested[i + 1]
  }

  /** The walk follows any nesting to its innermost value. */
  lemma {:induction false} WalkFollows(body: Json, names: seq<string>, nested: seq<Json>)
    requires Nested(body, names, nested)
    ensures Walk(Some(body), names) == Some(nested[|names|])
    decreases |names|
  {
    if names != [] {
      assert nested[1] == body.fields[names[0]];
      WalkFollows(nested[1], names[1..], nested[1..]);
    }
  }

  lemma {:induction false} NothingToWalk(names: seq<string>)
    ensures Walk(None, names) == None
  {
    if names != [] {
      NothingToWalk(names[1..]);
    }
  }

  /** A walk that arrives went along such a nesting. */
  lemma {:induction false} WalkIsNested(body: Json, names: seq<string>) returns (nested: seq<Json>)
    requires Walk(Some(body), names).Some?
    ensures Nested(body, names, nested)
    decreases |names|
  {
    if names == [] {
      nested := [body];
    } else {
      NothingToWalk(names[1..]);
      var inner := WalkIsNested(body.fields[names[0]], names[1..]);
      nested := [body] + inner;
    }
  }

  /** The body nests the names of the dotted path down to this string. */
  ghost predicate NamesString(body: Json, path: string, s: string) {
    exists names, nested ::
      && names != [] && Dotless(names) && JoinDots(names) == path
      && Nested(body, names, nested) && nested[|names|] == Str(s)
  }

  lemma ExtractMeans(body: Json, path: string, s: string)
    ensures ExtractWallet(Some(body), path) == Some(s) <==> NamesString(body, path, s)
  {
    var names := SplitDots(path);
    if Walk(Some(body), names) == Some(Str(s)) {
      var nested := WalkIsNested(body, names);
      WalkFollows(body, names, nested);
      JoinUndoesSplit(path);
      assert NamesString(body, path, s);
    }
    if NamesString(body, path, s) {
      var names', nested :| names' != [] && Dotless(names') && JoinDots(names') == path
                            && Nested(body, names', nested) && nested[|names'|] == Str(s);
      SplitUndoesJoin(names');
      WalkFollows(body, names', nested);
    }
  }

  /**
   * The guard limits exactly the non-empty string the body nests under the route's dotted path: no path, no body,
   * a missing field, a value on the way that is no object, or anything but a string at its end limits nothing.
   */
  lemma LimitsExactlyTheNamedWallet(body: Option<Json>, path: Option<string>, wallet: string)
    ensures LimitedWallet(body, path) == Some(wallet)
       <==> wallet != "" && path.Some? && path.value != "" && body.Some? && NamesString(body.value, path.value, wallet)
  {
    hide ExtractWallet, NamesString;
    if path.Some? {
      if body.Some? {
        ExtractMeans(body.value, path.value, wallet);
      } else {
        NoBody(path.value);
      }
    }
  }

  lemma NoBody(path: string)
    ensures ExtractWallet(None, path) == None
  {
    NothingToWalk(SplitDots(path));
  }

  // ----- requests through both tiers, their script calls interleaved

  /** One request: its address and when it was counted, and the same of the wallet it is limited by, if any. */
  datatype Visit = Visit(ip: string, ipAt: nat, wallet: Option<string>, walletAt: nat)

  /** The two awaits of `canActivate`; any number of requests may be between them. */
  datatype GuardEvent =
    | Enter(ip: string, wallet: Option<string>, at: nat)
    | Proceed(visit: nat, at: nat)

  /** `hits` lists the script calls made so far, for the statements only. */
  datatype GuardState = GuardState(
    store: Store,
    nextVisit: nat,
    waiting: map<nat, Visit>,
    admitted: seq<Visit>,
    hits: seq<Hit>)

  function Opened(store: Store): GuardState {
    GuardState(store, 0, map[], [], [])
  }

  function KeyOf(tier: Tier, name: string): string {
    match tier
    case Ip => IpKey(name)
    case Wallet => WalletKey(name)
  }

  function SecondsOf(limits: Limits, tier: Tier): nat {
    match tier
    case Ip => limits.ipSeconds
    case Wallet => limits.walletSeconds
  }

  function MaxOf(limits: Limits, tier: Tier): nat {
    match tier
    case Ip => limits.ipMax
    case Wallet => limits.walletMax
  }

  function HitOf(limits: Limits, tier: Tier, name: string, at: nat): Hit {
    Hit(KeyOf(tier, name), SecondsOf(limits, tier), at)
  }

  predicate Passes(store: Store, limits: Limits, tier: Tier, name: string, at: nat) {
    Scored(store, HitOf(limits, tier, name, at)).count <= MaxOf(limits, tier)
  }

  function Counted(g: GuardState, hit: Hit): GuardState {
    g.(store := g.store[hit.key := Scored(g.store, hit)], hits := g.hits + [hit])
  }

  /**
   * A request is counted against its address; with room there it is admitted, or waits to be counted against its
   * wallet. A wait may end at any time, or never.
   */
  function GuardStep(limits: Limits, g: GuardState, e: GuardEvent): GuardState {
    match e
    case Enter(ip, wallet, at) =>
      var v := Visit(ip, at, wallet, at);
      var g' := Counted(g, HitOf(limits, Ip, ip, at)).(nextVisit := g.nextVisit + 1);
      if !Passes(g.store, limits, Ip, ip, at) then g'
      else if wallet.None? then g'.(admitted := g.admitted + [v])
      else g'.(waiting := g.waiting[g.nextVisit := v])
    case Proceed(id, at) =>
      if id !in g.waiting || g.waiting[id].wallet.None? then g
      else
        var v := g.waiting[id].(walletAt := at);
        var g' := Counted(g, HitOf(limits, Wallet, v.wallet.value, at)).(waiting := g.waiting - {id});
        if Passes(g.store, limits, Wallet, v.wallet.value, at) then g'.(admitted := g.admitted + [v]) else g'
  }

  function Serve(limits: Limits, g: GuardState, events: seq<GuardEvent>): GuardState {
    if events == [] then g
    else GuardStep(limits, Serve(limits, g, events[..|events| - 1]), events[|events| - 1])
  }

  predicate Chronological(events: seq<GuardEvent>) {
    forall i, j :: 0 <= i < j < |events| ==> events[i].at <= events[j].at
  }

  /** The visit came from this address, or for this wallet in any spelling, and was counted in [from, to). */
  predicate Charged(v: Visit, tier: Tier, name: string, from: nat, to: nat) {
    match tier
    case Ip => v.ip == name && from <= v.ipAt < to
    case Wallet => v.wallet.Some? && SameLetters(v.wallet.value, name) && from <= v.walletAt < to
  }

  function AdmittedVisits(visits: seq<Visit>, tier: Tier, name: string, from: nat, to: nat): nat {
    if visits == [] then 0
    else AdmittedVisits(visits[..|visits| - 1], tier, name, from, to)
         + Flag(Charged(visits[|visits| - 1], tier, name, from, to))
  }

  /** Requests the address tier let through that are not settled yet. */
  ghost function Unsettled(g: GuardState, tier: Tier, name: string, from: nat, to: nat): set<nat> {
    set id | id in g.waiting && tier == Ip && Charged(g.waiting[id], Ip, name, from, to)
  }

  /** Every admitted or unsettled visit is an admitted hit of the key it was counted against. */
  ghost predicate Accounted(store: Store, limits: Limits, g: GuardState, tier: Tier, name: string, from: nat, to: nat) {
    && g.store == Replay(store, g.hits) && HasWindow(g.hits, KeyOf(tier, name), SecondsOf(limits, tier))
    && (forall id :: id in g.waiting ==> id < g.nextVisit)
    && AdmittedVisits(g.admitted, tier, name, from, to) + |Unsettled(g, tier, name, from, to)|
       <= AdmittedOf(store, g.hits, MaxOf(limits, tier), KeyOf(tier, name), from, to)
  }

  lemma {:induction false} ReplaySnoc(store: Store, hits: seq<Hit>, hit: Hit)
    ensures Replay(store, hits + [hit]) == Replay(store, hits)[hit.key := Scored(Replay(store, hits), hit)]
    decreases |hits|
  {
    if hits == [] {
      assert hits + [hit] == [hit] && [hit][1..] == [];
    } else {
      assert (hits + [hit])[1..] == hits[1..] + [hit];
      ReplaySnoc(store[hits[0].key := Scored(store, hits[0])], hits[1..], hit);
    }
  }

  lemma AdmittedSnoc(store: Store, hits: seq<Hit>, hit: Hit, max: nat, key: string, from: nat, to: nat)
    ensures AdmittedOf(store, hits + [hit], max, key, from, to)
         == AdmittedOf(store, hits, max, key, from, to)
            + Flag(hit.key == key && Scored(Replay(store, hits), hit).count <= max && from <= hit.now < to)
  {
    ReplayConcat(store, hits, [hit], max, key, from, to);
    assert [hit][1..] == [];
  }

  lemma OneMoreVisit(visits: seq<Visit>, v: Visit, tier: Tier, name: string, from: nat, to: nat)
    ensures AdmittedVisits(visits + [v], tier, name, from, to)
         == AdmittedVisits(visits, tier, name, from, to) + Flag(Charged(v, tier, name, from, to))
  {
    assert (visits + [v])[..|visits|] == visits;
  }

  lemma WindowStays(limits: Limits, hits: seq<Hit>, own: Tier, whose: string, at: nat, tier: Tier, name: string)
    requires HasWindow(hits, KeyOf(tier, name), SecondsOf(limits, tier))
    ensures HasWindow(hits + [HitOf(limits, own, whose, at)], KeyOf(tier, name), SecondsOf(limits, tier))
  {
    TiersAreSeparate(whose, name);
    TiersAreSeparate(name, whose);
  }

  lemma EnterAccounted(store: Store, limits: Limits, g: GuardState, ip: string, wallet: Option<string>, at: nat,
                       tier: Tier, name: string, from: nat, to: nat)
    requires Accounted(store, limits, g, tier, name, from, to)
    ensures Accounted(store, limits, GuardStep(limits, g, Enter(ip, wallet, at)), tier, name, from, to)
  {
    hide Scored, IpKey, WalletKey, Replay, AdmittedOf, AdmittedVisits, HasWindow;
    var hit, v := HitOf(limits, Ip, ip, at), Visit(ip, at, wallet, at);
    var g' := GuardStep(limits, g, Enter(ip, wallet, at));
    ReplaySnoc(store, g.hits, hit);
    AdmittedSnoc(store, g.hits, hit, MaxOf(limits, tier), KeyOf(tier, name), from, to);
    OneMoreVisit(g.admitted, v, tier, name, from, to);
    WindowStays(limits, g.hits, Ip, ip, at, tier, name);
    TiersAreSeparate(ip, name);
    var u, u' := Unsettled(g, tier, name, from, to), Unsettled(g', tier, name, from, to);
    if tier == Ip && Charged(v, Ip, name, from, to) && g.nextVisit in g'.waiting {
      assert u' == u + {g.nextVisit};
    } else {
      assert u' == u;
    }
  }

  lemma ProceedAccounted(store: Store, limits: Limits, g: GuardState, id: nat, at: nat,
                         tier: Tier, name: string, from: nat, to: nat)
    requires Accounted(store, limits, g, tier, name, from, to)
    ensures Accounted(store, limits, GuardStep(limits, g, Proceed(id, at)), tier, name, from, to)
  {
    hide Scored, IpKey, WalletKey, Replay, AdmittedOf, AdmittedVisits, HasWindow;
    if id in g.waiting && g.waiting[id].wallet.Some? {
      var v := g.waiting[id].(walletAt := at);
      var hit := HitOf(limits, Wallet, v.wallet.value, at);
      var g' := GuardStep(limits, g, Proceed(id, at));
      ReplaySnoc(store, g.hits, hit);
      AdmittedSnoc(store, g.hits, hit, MaxOf(limits, tier), KeyOf(tier, name), from, to);
      OneMoreVisit(g.admitted, v, tier, name, from, to);
      WindowStays(limits, g.hits, Wallet, v.wallet.value, at, tier, name);
      WalletKeysAgreeIff(v.wallet.value, name);
      var u, u' := Unsettled(g, tier, name, from, to), Unsettled(g', tier, name, from, to);
      assert u' == u - {id};
    }
  }

  lemma {:induction false} VisitsWithinHits(store: Store, limits: Limits, events: seq<GuardEvent>, tier: Tier,
                                            name: string, from: nat, to: nat)
    ensures Accounted(store, limits, Serve(limits, Opened(store), events), tier, name, from, to)
  {
    if events == [] {
      assert Unsettled(Opened(store), tier, name, from, to) == {};
    } else {
      var front, e := events[..|events| - 1], events[|events| - 1];
      VisitsWithinHits(store, limits, front, tier, name, from, to);
      hide Accounted, GuardStep;
      var g := Serve(limits, Opened(store), front);
      match e
      case Enter(ip, wallet, at) => EnterAccounted(store, limits, g, ip, wallet, at, tier, name, from, to);
      case Proceed(id, at) => ProceedAccounted(store, limits, g, id, at, tier, name, from, to);
    }
  }

  lemma {:induction false} HitsInOrder(store: Store, limits: Limits, events: seq<GuardEvent>)
    requires Chronological(events)
    ensures var hits := Serve(limits, Opened(store), events).hits;
            && InOrder(hits) && (forall hit :: hit in hits ==> events != [] && hit.now <= events[|events| - 1].at)
  {
    if events == [] {
    } else {
      var front := events[..|events| - 1];
      HitsInOrder(store, limits, front);
      OneHitAtMost(limits, Serve(limits, Opened(store), front), events[|events| - 1]);
      hide GuardStep;
      var hits := Serve(limits, Opened(store), front).hits;
      assert forall i :: 0 <= i < |hits| ==> hits[i] in hits;
    }
  }

  lemma OneHitAtMost(limits: Limits, g: GuardState, e: GuardEvent)
    ensures var g' := GuardStep(limits, g, e);
            g'.hits == g.hits || (|g'.hits| > 0 && g'.hits == g.hits + [g'.hits[|g'.hits| - 1]]
                                  && g'.hits[|g'.hits| - 1].now == e.at)
  {
    hide Scored, KeyOf;
  }

  /**
   * What the guard promises a caller: whatever mix of addresses and wallets it sees, however their requests
   * interleave, from whatever counters it starts, the requests it lets through for one address, or for one
   * wallet, number at most 2 max - 1 in any half-open interval of that tier's window.
   */
  lemma GuardAdmitsWithinBound(store: Store, limits: Limits, events: seq<GuardEvent>, tier: Tier, name: string,
                               from: nat)
    requires Expiring(store) && Chronological(events) && MaxOf(limits, tier) > 0 && SecondsOf(limits, tier) > 0
    ensures AdmittedVisits(Serve(limits, Opened(store), events).admitted, tier, name,
                           from, from + 1000 * SecondsOf(limits, tier))
         <= 2 * MaxOf(limits, tier) - 1
  {
    hide AdmittedVisits, AdmittedOf, Serve, KeyOf, SecondsOf, MaxOf, Unsettled;
    var seconds := SecondsOf(limits, tier);
    VisitsWithinHits(store, limits, events, tier, name, from, from + 1000 * seconds);
    HitsInOrder(store, limits, events);
    var hits := Serve(limits, Opened(store), events).hits;
    SlidingBoundPerKey(store, hits, seconds, MaxOf(limits, tier), KeyOf(tier, name), from);
  }

  /** A request served with nothing in between: counted once per tier that applies, admitted if both have room. */
  lemma Uninterrupted(store: Store, limits: Limits, ip: string, wallet: Option<string>, at: nat, later: nat)
    ensures var g := Serve(limits, Opened(store), [Enter(ip, wallet, at), Proceed(0, later)]);
            var after := store[IpKey(ip) := Scored(store, HitOf(limits, Ip, ip, at))];
            if !Passes(store, limits, Ip, ip, at) then g.admitted == [] && g.store == after
            else if wallet.None? then |g.admitted| == 1 && g.store == after
            else
              && g.store == after[WalletKey(wallet.value) := Scored(store, HitOf(limits, Wallet, wallet.value, later))]
              && |g.admitted| == Flag(Passes(store, limits, Wallet, wallet.value, later))
  {
    var events := [Enter(ip, wallet, at), Proceed(0, later)];
    assert events[..1] == [events[0]] && [events[0]][..0] == [];
    assert Serve(limits, Opened(store), events[..1]) == GuardStep(limits, Opened(store), events[0]);
    if wallet.Some? {
      TiersAreSeparate(ip, wallet.value);
    }
    hide IpKey, WalletKey;
  }

  lemma ScriptExpires(c: Option<Counter>, seconds: nat, now: nat)
    requires Scripted(c)
    ensures Scripted(Some(Script(c, seconds, now)))
  {
  }

  class RateLimitGuard {
    const limits: Limits
    var redis: Store

    constructor (limits: Limits)
      requires limits.ipSeconds > 0 && limits.walletSeconds > 0
      ensures this.limits == limits && redis == map[] && Valid()
    {
      this.limits := limits;
      redis := map[];
    }

    ghost predicate Valid()
      reads this
    {
      && limits.ipSeconds > 0 && limits.walletSeconds > 0
      && Expiring(redis)
    }

    /** `redis.eval(INCR_WITH_EXPIRY_SCRIPT, ...)` */
    method Eval(key: string, windowSeconds: nat, now: nat) returns (current: nat)
      modifies this`redis
      ensures redis == old(redis)[key := Script(Lookup(old(redis), key), windowSeconds, now)]
      ensures current == redis[key].count
    {
      redis := redis[key := Incr(Lookup(redis, key), now)];
      current := redis[key].count;
      if current == 1 {
        redis := redis[key := redis[key].(expiresAt := Some(now + 1000 * windowSeconds))];
      }
    }

    method Enforce(tier: Tier, key: string, max: nat, windowSeconds: nat, now: nat) returns (r: Result<(), Refusal>)
      modifies this`redis
      ensures redis == old(redis)[key := Scored(old(redis), Hit(key, windowSeconds, now))]
      ensures r == if redis[key].count > max then Err(TooManyRequests(tier, max, windowSeconds)) else Ok(())
    {
      var count := Eval(key, windowSeconds, now);
      if count > max {
        return Err(TooManyRequests(tier, max, windowSeconds));
      }
      return Ok(());
    }

    /**
     * Admitted exactly when every applicable tier still has room; an IP refusal leaves all wallet counters
     * alone, a wallet refusal has already spent the IP hit. `now` and `later` are the times of the two awaits.
     */
    method CanActivate(ip: string, body: Option<Json>, walletPath: Option<string>, now: nat, later: nat)
      returns (r: Result<(), Refusal>)
      requires Valid()
      modifies this`redis
      ensures Valid()
      ensures var wallet := LimitedWallet(body, walletPath);
              var g := Serve(limits, Opened(old(redis)), [Enter(ip, wallet, now), Proceed(0, later)]);
              redis == g.store && |g.admitted| == (if r.Ok? then 1 else 0)
      ensures var wallet := LimitedWallet(body, walletPath);
              var ipCounter := Script(Lookup(old(redis), IpKey(ip)), limits.ipSeconds, now);
              if ipCounter.count > limits.ipMax then
                && r == Err(TooManyRequests(Ip, limits.ipMax, limits.ipSeconds))
                && redis == old(redis)[IpKey(ip) := ipCounter]
              else if wallet.None? then
                r == Ok(()) && redis == old(redis)[IpKey(ip) := ipCounter]
              else
                var walletCounter := Script(Lookup(old(redis), WalletKey(wallet.value)), limits.walletSeconds, later);
                && redis == old(redis)[IpKey(ip) := ipCounter][WalletKey(wallet.value) := walletCounter]
                && r == if walletCounter.count > limits.walletMax
                        then Err(TooManyRequests(Wallet, limits.walletMax, limits.walletSeconds)) else Ok(())
    {
      Uninterrupted(redis, limits, ip, LimitedWallet(body, walletPath), now, later);
      ScriptExpires(Lookup(redis, IpKey(ip)), limits.ipSeconds, now);
      hide Script, ExtractWallet, IpKey, WalletKey, Serve, Scripted;
      r := Enforce(Ip, IpKey(ip), limits.ipMax, limits.ipSeconds, now);
      if r.Err? {
        return;
      }
      var wallet := None;
      if walletPath.Some? && walletPath.value != "" {
        wallet := ExtractWallet(body, walletPath.value);
      }
      if wallet.Some? && wallet.value != "" {
        TiersAreSeparate(ip, wallet.value);
        ScriptExpires(Lookup(redis, WalletKey(wallet.value)), limits.walletSeconds, later);
        r := Enforce(Wallet, WalletKey(wallet.value), limits.walletMax, limits.walletSeconds, later);
      }
    }
  }
}
