/** policy.service.ts `findApplicablePolicy`: which sponsorship policy decides a request. */
module Policies {
  import opened Wrappers

  datatype Policy = Policy(
    id: string,
    name: string,
    chainId: nat,
    targetContract: Option<string>,
    allowedSelectors: seq<string>,
    dailyQuota: int,
    isActive: bool,
    createdAt: nat)

  datatype PolicyViolation = NoPolicy | MethodNotWhitelisted

  function LowerChar(c: char): char {
    if 'A' <= c <= 'Z' then (c as int + 32) as char else c
  }

  function ToLower(s: string): (r: string)
    ensures |r| == |s| && forall i :: 0 <= i < |s| ==> r[i] == LowerChar(s[i])
  {
    if s == [] then [] else [LowerChar(s[0])] + ToLower(s[1..])
  }

  // ----- letter case, apart from any folding

  predicate IsUpper(c: char) {
    'A' <= c <= 'Z'
  }

  /** The two cases of one ASCII letter: the same place in 'A'..'Z' and in 'a'..'z'. */
  predicate CasePair(upper: char, lower: char) {
    IsUpper(upper) && 'a' <= lower <= 'z' && upper as int - 'A' as int == lower as int - 'a' as int
  }

  predicate SameLetter(c: char, d: char) {
    c == d || CasePair(c, d) || CasePair(d, c)
  }

  /** Equal letter by letter, up to ASCII case. */
  predicate SameLetters(a: string, b: string) {
    |a| == |b| && forall i :: 0 <= i < |a| ==> SameLetter(a[i], b[i])
  }

  predicate AllLower(s: string) {
    forall i :: 0 <= i < |s| ==> !IsUpper(s[i])
  }

  /** Comparing folded strings is comparing up to case. */
  lemma FoldedEqualIffSameLetters(a: string, b: string)
    ensures ToLower(a) == ToLower(b) <==> SameLetters(a, b)
  {
    if ToLower(a) == ToLower(b) {
      assert forall i :: 0 <= i < |a| ==> LowerChar(a[i]) == ToLower(a)[i] == ToLower(b)[i] == LowerChar(b[i]);
    }
  }

  /** The folded form is the one spelling without an upper-case letter. */
  lemma IsFoldedIff(s: string, folded: string)
    ensures folded == ToLower(s) <==> AllLower(folded) && SameLetters(folded, s)
  {
  }

  // ----- the query

  predicate Scoped(p: Policy, target: string) {
    p.targetContract == Some(ToLower(target))
  }

  predicate Selected(p: Policy, chainId: nat, target: string) {
    p.chainId == chainId && p.isActive && (Scoped(p, target) || p.targetContract == None)
  }

  function Selection(table: seq<Policy>, chainId: nat, target: string): seq<Policy> {
    if table == [] then []
    else (if Selected(table[0], chainId, target) then [table[0]] else []) + Selection(table[1..], chainId, target)
  }

  /** Any order `ORDER BY createdAt ASC` may return the matching rows in; ties are the database's choice. */
  ghost predicate IsQueryResult(table: seq<Policy>, chainId: nat, target: string, candidates: seq<Policy>) {
    && multiset(candidates) == multiset(Selection(table, chainId, target))
    && forall i, j :: 0 <= i < j < |candidates| ==> candidates[i].createdAt <= candidates[j].createdAt
  }

  // ----- the choice

  function FindScoped(candidates: seq<Policy>, target: string): Option<Policy> {
    if candidates == [] then None
    else if candidates[0].targetContract.Some? && ToLower(candidates[0].targetContract.value) == ToLower(target)
    then Some(candidates[0])
    else FindScoped(candidates[1..], target)
  }

  function FindWildcard(candidates: seq<Policy>): Option<Policy> {
    if candidates == [] then None
    else if candidates[0].targetContract == None then Some(candidates[0])
    else FindWildcard(candidates[1..])
  }

  predicate MethodAllowed(p: Policy, selector: string) {
    |p.allowedSelectors| == 0 || exists s :: s in p.allowedSelectors && ToLower(s) == ToLower(selector)
  }

  function FindApplicablePolicy(candidates: seq<Policy>, target: string, selector: string)
    : Result<Policy, PolicyViolation>
  {
    var scoped := FindScoped(candidates, target);
    var policy := if scoped.Some? then scoped else FindWildcard(candidates);
    if policy.None? then Err(NoPolicy)
    else if !MethodAllowed(policy.value, selector) then Err(MethodNotWhitelisted)
    else Ok(policy.value)
  }

  // ----- what the choice means over the table

  /** Stored for this very contract: its address up to case, and spelled in lower case as the query expects. */
  predicate CoversContract(p: Policy, target: string) {
    p.targetContract.Some? && SameLetters(p.targetContract.value, target) && AllLower(p.targetContract.value)
  }

  lemma ScopedMeans(p: Policy, target: string)
    ensures Scoped(p, target) <==> CoversContract(p, target)
  {
    if p.targetContract.Some? {
      IsFoldedIff(target, p.targetContract.value);
    }
  }

  /** The policy's list is empty, or has the selector up to case. */
  predicate Lists(p: Policy, selector: string) {
    p.allowedSelectors == []
    || exists i :: 0 <= i < |p.allowedSelectors| && SameLetters(p.allowedSelectors[i], selector)
  }

  lemma MethodAllowedMeans(p: Policy, selector: string)
    ensures MethodAllowed(p, selector) <==> Lists(p, selector)
  {
    hide ToLower, SameLetters;
    forall s {
      FoldedEqualIffSameLetters(s, selector);
    }
    if s :| s in p.allowedSelectors && SameLetters(s, selector) {
      var i :| 0 <= i < |p.allowedSelectors| && p.allowedSelectors[i] == s;
    }
  }

  predicate InTable(table: seq<Policy>, chainId: nat, p: Policy) {
    p in table && p.chainId == chainId && p.isActive
  }

  /** `p` is the oldest active policy scoped to the target or, with none scoped, the oldest active wildcard. */
  ghost predicate Decides(table: seq<Policy>, chainId: nat, target: string, p: Policy) {
    && InTable(table, chainId, p)
    && (if exists q :: InTable(table, chainId, q) && CoversContract(q, target)
        then CoversContract(p, target)
             && forall q :: InTable(table, chainId, q) && CoversContract(q, target) ==> p.createdAt <= q.createdAt
        else p.targetContract == None
             && forall q :: InTable(table, chainId, q) && q.targetContract == None ==> p.createdAt <= q.createdAt)
  }

  ghost predicate Covered(table: seq<Policy>, chainId: nat, target: string) {
    exists q :: InTable(table, chainId, q) && (CoversContract(q, target) || q.targetContract == None)
  }

  lemma {:induction false} SelectionHas(table: seq<Policy>, chainId: nat, target: string, p: Policy)
    ensures p in Selection(table, chainId, target) <==> p in table && Selected(p, chainId, target)
  {
    if table == [] {
    } else {
      SelectionHas(table[1..], chainId, target, p);
      assert table == [table[0]] + table[1..];
    }
  }

  lemma CandidatesHas(table: seq<Policy>, chainId: nat, target: string, candidates: seq<Policy>, p: Policy)
    requires IsQueryResult(table, chainId, target, candidates)
    ensures p in candidates <==> p in table && Selected(p, chainId, target)
  {
    SelectionHas(table, chainId, target, p);
    assert p in candidates <==> p in multiset(candidates);
    assert p in Selection(table, chainId, target) <==> p in multiset(Selection(table, chainId, target));
  }

  ghost predicate Oldest(candidates: seq<Policy>, p: Policy, scoped: bool, target: string) {
    && p in candidates && (if scoped then Scoped(p, target) else p.targetContract == None)
    && forall q :: q in candidates && (if scoped then Scoped(q, target) else q.targetContract == None)
                   ==> p.createdAt <= q.createdAt
  }

  /** On the rows the query returns, the case-folding comparison of the choice is the exact one of the query. */
  lemma FoldedTestIsScoped(p: Policy, target: string)
    requires Scoped(p, target) || p.targetContract == None
    ensures p.targetContract.Some? && ToLower(p.targetContract.value) == ToLower(target) <==> Scoped(p, target)
  {
    ScopedMeans(p, target);
    if p.targetContract.Some? {
      FoldedEqualIffSameLetters(p.targetContract.value, target);
    }
  }

  /** The first scoped candidate of an ordered list is the oldest, and is found whenever there is one. */
  lemma {:induction false} FindScopedOldest(candidates: seq<Policy>, target: string)
    requires forall i, j :: 0 <= i < j < |candidates| ==> candidates[i].createdAt <= candidates[j].createdAt
    requires forall p :: p in candidates ==> Scoped(p, target) || p.targetContract == None
    ensures var r := FindScoped(candidates, target);
            && (r.Some? <==> exists q :: q in candidates && Scoped(q, target))
            && (r.Some? ==> Oldest(candidates, r.value, true, target))
  {
    hide ToLower;
    if candidates == [] {
    } else {
      FoldedTestIsScoped(candidates[0], target);
      var tail := candidates[1..];
      assert candidates == [candidates[0]] + tail;
      assert forall q :: q in candidates ==> candidates[0].createdAt <= q.createdAt;
      FindScopedOldest(tail, target);
    }
  }

  lemma {:induction false} FindWildcardOldest(candidates: seq<Policy>, target: string)
    requires forall i, j :: 0 <= i < j < |candidates| ==> candidates[i].createdAt <= candidates[j].createdAt
    ensures var r := FindWildcard(candidates);
            && (r.Some? <==> exists q :: q in candidates && q.targetContract == None)
            && (r.Some? ==> Oldest(candidates, r.value, false, target))
  {
    hide ToLower, Scoped;
    if candidates == [] {
    } else {
      var tail := candidates[1..];
      assert candidates == [candidates[0]] + tail;
      assert forall q :: q in candidates ==> candidates[0].createdAt <= q.createdAt;
      FindWildcardOldest(tail, target);
    }
  }

  /**
   * Over any table and any order the database may return: the request is refused as uncovered exactly when no
   * active policy covers it; otherwise one deciding policy's selector list alone settles it.
   */
  lemma ChoiceIsDeclarative(table: seq<Policy>, chainId: nat, target: string, selector: string, candidates: seq<Policy>)
    requires IsQueryResult(table, chainId, target, candidates)
    ensures var r := FindApplicablePolicy(candidates, target, selector);
            if !Covered(table, chainId, target) then r == Err(NoPolicy)
            else exists p :: Decides(table, chainId, target, p)
                             && r == if Lists(p, selector) then Ok(p) else Err(MethodNotWhitelisted)
  {
    hide Scoped, CoversContract, MethodAllowed, Lists;
    forall p ensures Scoped(p, target) <==> CoversContract(p, target) {
      ScopedMeans(p, target);
    }
    forall p ensures p in candidates <==> p in table && Selected(p, chainId, target) {
      CandidatesHas(table, chainId, target, candidates, p);
    }
    FindScopedOldest(candidates, target);
    FindWildcardOldest(candidates, target);
    var scoped, wildcard := FindScoped(candidates, target), FindWildcard(candidates);
    if scoped.Some? {
      assert Decides(table, chainId, target, scoped.value);
      MethodAllowedMeans(scoped.value, selector);
    } else if wildcard.Some? {
      assert Decides(table, chainId, target, wildcard.value);
      MethodAllowedMeans(wildcard.value, selector);
    }
  }

  /** A scoped policy's refusal is final: no wildcard rescues a selector that every deciding scoped policy refuses. */
  lemma ScopedRefusalIsFinal(table: seq<Policy>, chainId: nat, target: string, selector: string,
                             candidates: seq<Policy>)
    requires IsQueryResult(table, chainId, target, candidates)
    requires exists q :: InTable(table, chainId, q) && CoversContract(q, target)
    requires forall p :: InTable(table, chainId, p) && CoversContract(p, target) ==> !Lists(p, selector)
    ensures FindApplicablePolicy(candidates, target, selector) == Err(MethodNotWhitelisted)
  {
    hide Lists, CoversContract;
    ChoiceIsDeclarative(table, chainId, target, selector, candidates);
    var q :| InTable(table, chainId, q) && CoversContract(q, target);
    assert Covered(table, chainId, target);
  }

  /** A policy stored with an upper-case letter in its contract is dead: no request is ever decided by it. */
  lemma MixedCaseNeverDecides(table: seq<Policy>, chainId: nat, target: string, selector: string,
                              candidates: seq<Policy>, p: Policy)
    requires IsQueryResult(table, chainId, target, candidates)
    requires p.targetContract.Some? && !AllLower(p.targetContract.value)
    ensures FindApplicablePolicy(candidates, target, selector) != Ok(p)
  {
    ChoiceIsDeclarative(table, chainId, target, selector, candidates);
  }

  lemma {:induction false} SelectionSkips(a: seq<Policy>, p: Policy, b: seq<Policy>, chainId: nat, target: string)
    requires !Selected(p, chainId, target)
    ensures Selection(a + [p] + b, chainId, target) == Selection(a + b, chainId, target)
  {
    if a == [] {
      assert [p] + b == a + [p] + b && a + b == b;
    } else {
      SelectionSkips(a[1..], p, b, chainId, target);
      assert (a + [p] + b)[1..] == a[1..] + [p] + b && (a + b)[1..] == a[1..] + b;
    }
  }

  /** Adding, editing, activating or deactivating a policy scoped to one contract changes no decision for another. */
  lemma ScopedPoliciesAreIndependent(a: seq<Policy>, p: Policy, p': Policy, b: seq<Policy>, chainId: nat,
                                     target: string, candidates: seq<Policy>)
    requires p.targetContract.Some? && p'.targetContract == p.targetContract && !CoversContract(p, target)
    ensures IsQueryResult(a + [p] + b, chainId, target, candidates)
        <==> IsQueryResult(a + [p'] + b, chainId, target, candidates)
    ensures IsQueryResult(a + [p] + b, chainId, target, candidates)
        <==> IsQueryResult(a + b, chainId, target, candidates)
  {
    ScopedMeans(p, target);
    ScopedMeans(p', target);
    SelectionSkips(a, p, b, chainId, target);
    SelectionSkips(a, p', b, chainId, target);
  }
}
