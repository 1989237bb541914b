/** EIP-7702 authorizations against the root call's nonce changes (tracer.go:1344-1383). The greedy
    matching keeps, for every signer and nonce, as many authorizations as there are matching nonce
    changes, the earliest first, each with a nonce change of its own. */
module Authorizations {
  import opened Bytes
  import opened Wrappers
  import opened Model
  import opened Completion

  /** The nonce change made by applying `a`: its signer's nonce moves from the authorization's to the next, in 64
      bits. */
  predicate Spends(c: Change, a: Auth) {
    c.body == Nonce(a.authority, a.nonce, (a.nonce + 1) % 0x1_0000_0000_0000_0000)
  }

  predicate Recovered(a: Auth) { |a.authority| > 0 }

  /** Two authorizations competing for the same nonce changes. */
  predicate SameClaim(a: Auth, b: Auth) { a.authority == b.authority && a.nonce == b.nonce }

  /** Number of nonce changes among the first `n` that match `a`. */
  function Matching(changes: seq<Change>, a: Auth, n: nat): nat
    requires n <= |changes|
  {
    if n == 0 then 0 else Matching(changes, a, n - 1) + if Spends(changes[n - 1], a) then 1 else 0
  }

  /** Those of them that are used. */
  function Taken(changes: seq<Change>, used: set<nat>, a: Auth, n: nat): nat
    requires n <= |changes|
  {
    if n == 0 then 0 else Taken(changes, used, a, n - 1) + if Spends(changes[n - 1], a) && n - 1 in used then 1 else 0
  }

  /** Number of authorizations before position `p` making the same claim as `a`. */
  function Before(auths: seq<Auth>, a: Auth, p: nat): nat
    requires p <= |auths|
  {
    if p == 0 then 0
    else Before(auths, a, p - 1) + if Recovered(auths[p - 1]) && SameClaim(auths[p - 1], a) then 1 else 0
  }

  function Min(a: nat, b: nat): nat { if a < b then a else b }

  // ---------------------------------------------------------------- the search

  lemma {:induction false} FindSpec(changes: seq<Change>, used: set<nat>, a: Auth, from: nat)
    ensures var r := FindNonceChange(changes, used, a, from);
      match r
      case Some(i) => from <= i < |changes| && Spends(changes[i], a) && i !in used
      case None => forall i :: from <= i < |changes| && Spends(changes[i], a) ==> i in used
    decreases |changes| - from
  {
    if from < |changes| {
      FindSpec(changes, used, a, from + 1);
    }
  }

  lemma {:induction false} AllTaken(changes: seq<Change>, used: set<nat>, a: Auth, n: nat)
    requires n <= |changes|
    ensures Taken(changes, used, a, n) <= Matching(changes, a, n)
    ensures (forall i :: 0 <= i < n && Spends(changes[i], a) ==> i in used) 
        <==> Taken(changes, used, a, n) == Matching(changes, a, n)
  {
    if n > 0 {
      AllTaken(changes, used, a, n - 1);
    }
  }

  lemma {:induction false} TakeOne(changes: seq<Change>, used: set<nat>, a: Auth, i: nat, n: nat)
    requires n <= |changes| && i !in used && i < |changes|
    ensures Taken(changes, used + {i}, a, n)
         == Taken(changes, used, a, n) + if i < n && Spends(changes[i], a) then 1 else 0
  {
    if n > 0 {
      TakeOne(changes, used, a, i, n - 1);
    }
  }

  lemma {:induction false} NothingTaken(changes: seq<Change>, a: Auth, n: nat)
    requires n <= |changes|
    ensures Taken(changes, {}, a, n) == 0
  {
    if n > 0 {
      NothingTaken(changes, a, n - 1);
    }
  }

  // ---------------------------------------------------------------- the matching

  /** After the authorizations before `p`, every claim has used what it could. */
  ghost predicate Progress(auths: seq<Auth>, changes: seq<Change>, used: set<nat>, p: nat)
    requires p <= |auths|
  {
    forall a: Auth :: Taken(changes, used, a, |changes|) == Min(Before(auths, a, p), Matching(changes, a, |changes|))
  }

  /** Authorization `p` is applied: its signer is known and fewer earlier ones make its claim than there are
      matching nonce changes. */
  predicate Applied(auths: seq<Auth>, changes: seq<Change>, p: nat)
    requires p < |auths|
  {
    Recovered(auths[p]) && Before(auths, auths[p], p) < Matching(changes, auths[p], |changes|)
  }

  lemma FoundIffApplied(auths: seq<Auth>, changes: seq<Change>, used: set<nat>, p: nat)
    requires p < |auths| && Progress(auths, changes, used, p) && Recovered(auths[p])
    ensures FindNonceChange(changes, used, auths[p], 0).Some? <==> Applied(auths, changes, p)
  {
    FindSpec(changes, used, auths[p], 0);
    AllTaken(changes, used, auths[p], |changes|);
    assert Taken(changes, used, auths[p], |changes|)
        == Min(Before(auths, auths[p], p), Matching(changes, auths[p], |changes|));
  }

  lemma ProgressNext(auths: seq<Auth>, changes: seq<Change>, used: set<nat>, p: nat, used': set<nat>)
    requires p < |auths| && Progress(auths, changes, used, p)
    requires var r := if Recovered(auths[p]) then FindNonceChange(changes, used, auths[p], 0) else None;
      used' == WithUsed(used, r)
    ensures Progress(auths, changes, used', p + 1)
  {
    if Recovered(auths[p]) {
      FoundIffApplied(auths, changes, used, p);
      FindSpec(changes, used, auths[p], 0);
    }
    forall a: Auth
      ensures Taken(changes, used', a, |changes|) == Min(Before(auths, a, p + 1), Matching(changes, a, |changes|))
    {
      assert Taken(changes, used, a, |changes|) == Min(Before(auths, a, p), Matching(changes, a, |changes|));
      if Recovered(auths[p]) {
        if SameClaim(auths[p], a) {
          SameCounts(auths, changes, auths[p], a, p, |changes|);
        }
        var r := FindNonceChange(changes, used, auths[p], 0);
        if r.Some? {
          TakeOne(changes, used, a, r.value, |changes|);
        }
      }
    }
  }

  lemma {:induction false} SameCounts(auths: seq<Auth>, changes: seq<Change>, a: Auth, b: Auth, p: nat, n: nat)
    requires SameClaim(a, b) && p <= |auths| && n <= |changes|
    ensures Before(auths, a, p) == Before(auths, b, p) && Matching(changes, a, n) == Matching(changes, b, n)
    decreases p + n
  {
    if p > 0 {
      SameCounts(auths, changes, a, b, p - 1, n);
    } else if n > 0 {
      SameCounts(auths, changes, a, b, p, n - 1);
    }
  }

  /** The nonce change each authorization of the matching uses. */
  function Assign(auths: seq<Auth>, changes: seq<Change>, used: set<nat>): (m: seq<Option<nat>>)
    ensures |m| == |auths|
  {
    if |auths| == 0 then []
    else
      var r := if Recovered(auths[0]) then FindNonceChange(changes, used, auths[0], 0) else None;
      [r] + Assign(auths[1..], changes, WithUsed(used, r))
  }

  function Used(auths: seq<Auth>, changes: seq<Change>, used: set<nat>, p: nat): Option<nat>
    requires p < |auths|
  {
    if Recovered(auths[p]) then FindNonceChange(changes, used, auths[p], 0) else None
  }

  lemma FirstOf(auths: seq<Auth>, changes: seq<Change>, used: set<nat>, p: nat)
    requires p < |auths|
    ensures var r := Used(auths, changes, used, p);
      && Discard(auths[p..], changes, used)
         == [auths[p].(discarded := auths[p].discarded || r.None?)]
            + Discard(auths[p + 1..], changes, WithUsed(used, r))
      && Assign(auths[p..], changes, used) == [r] + Assign(auths[p + 1..], changes, WithUsed(used, r))
  {
    assert auths[p..][0] == auths[p] && auths[p..][1..] == auths[p + 1..];
  }

  /** From position `p` on, exactly the applied authorizations stay undiscarded and are assigned a nonce change. */
  ghost predicate DecidedFrom(auths: seq<Auth>, changes: seq<Change>, p: nat, r: seq<Auth>, m: seq<Option<nat>>)
    requires p <= |auths|
  {
    && |r| == |m| == |auths| - p
    && (forall i :: p <= i < |auths| ==>
          r[i - p] == auths[i].(discarded := auths[i].discarded || !Applied(auths, changes, i)))
    && forall i :: p <= i < |auths| ==> (m[i - p].Some? <==> Applied(auths, changes, i))
  }

  lemma DecideOne(auths: seq<Auth>, changes: seq<Change>, p: nat, r: Option<nat>, rest: seq<Auth>, m: seq<Option<nat>>)
    requires p < |auths| && DecidedFrom(auths, changes, p + 1, rest, m) && (r.Some? <==> Applied(auths, changes, p))
    ensures DecidedFrom(auths, changes, p, [auths[p].(discarded := auths[p].discarded || r.None?)] + rest, [r] + m)
  {
    hide Applied;
    var rr, mm := [auths[p].(discarded := auths[p].discarded || r.None?)] + rest, [r] + m;
    forall i | p <= i < |auths|
      ensures rr[i - p] == auths[i].(discarded := auths[i].discarded || !Applied(auths, changes, i))
      ensures mm[i - p].Some? <==> Applied(auths, changes, i)
    {
      if i > p {
        assert rr[i - p] == rest[i - (p + 1)] && mm[i - p] == m[i - (p + 1)];
      }
    }
  }

  lemma {:induction false} DiscardFrom(auths: seq<Auth>, changes: seq<Change>, used: set<nat>, p: nat)
    requires p <= |auths| && Progress(auths, changes, used, p)
    ensures DecidedFrom(auths, changes, p, Discard(auths[p..], changes, used), Assign(auths[p..], changes, used))
    decreases |auths| - p
  {
    hide Progress, Applied, DecidedFrom, Discard, Assign;
    if p == |auths| {
      NothingDecided(auths, changes, used);
    } else {
      var r := Used(auths, changes, used, p);
      assert r.Some? <==> Applied(auths, changes, p) by {
        if Recovered(auths[p]) {
          FoundIffApplied(auths, changes, used, p);
        } else {
          NotApplied(auths, changes, p);
        }
      }
      ProgressNext(auths, changes, used, p, WithUsed(used, r));
      FirstOf(auths, changes, used, p);
      DiscardFrom(auths, changes, WithUsed(used, r), p + 1);
      DecideOne(auths, changes, p, r, Discard(auths[p + 1..], changes, WithUsed(used, r)),
                Assign(auths[p + 1..], changes, WithUsed(used, r)));
    }
  }

  lemma NothingDecided(auths: seq<Auth>, changes: seq<Change>, used: set<nat>)
    ensures DecidedFrom(auths, changes, |auths|, Discard(auths[|auths|..], changes, used),
                        Assign(auths[|auths|..], changes, used))
  {
  }

  lemma NotApplied(auths: seq<Auth>, changes: seq<Change>, p: nat)
    requires p < |auths| && !Recovered(auths[p])
    ensures !Applied(auths, changes, p)
  {
  }

  /** `m` assigns matching nonce changes outside `used`, never one twice. */
  ghost predicate IsAssignment(auths: seq<Auth>, changes: seq<Change>, used: set<nat>, m: seq<Option<nat>>) {
    && |m| == |auths|
    && (forall i :: 0 <= i < |m| && m[i].Some? ==> m[i].value < |changes| && m[i].value !in used
                                                   && Spends(changes[m[i].value], auths[i]))
    && forall i, j :: 0 <= i < j < |m| && m[i].Some? && m[j].Some? ==> m[i].value != m[j].value
  }

  lemma {:induction false} AssignInjective(auths: seq<Auth>, changes: seq<Change>, used: set<nat>)
    ensures IsAssignment(auths, changes, used, Assign(auths, changes, used))
    decreases |auths|
  {
    if |auths| > 0 {
      var r := if Recovered(auths[0]) then FindNonceChange(changes, used, auths[0], 0) else None;
      FindSpec(changes, used, auths[0], 0);
      AssignInjective(auths[1..], changes, WithUsed(used, r));
      var m, rest := Assign(auths, changes, used), Assign(auths[1..], changes, WithUsed(used, r));
      assert forall i :: 0 < i < |m| ==> m[i] == rest[i - 1] && auths[i] == auths[1..][i - 1];
    }
  }

  /** Number of applied authorizations among the first `p` making the claim of `a`. */
  function AppliedCount(auths: seq<Auth>, changes: seq<Change>, a: Auth, p: nat): nat
    requires p <= |auths|
  {
    if p == 0 then 0
    else AppliedCount(auths, changes, a, p - 1)
         + if SameClaim(auths[p - 1], a) && Applied(auths, changes, p - 1) then 1 else 0
  }

  lemma {:induction false} AppliedIsMinimum(auths: seq<Auth>, changes: seq<Change>, a: Auth, p: nat)
    requires p <= |auths|
    ensures AppliedCount(auths, changes, a, p) == Min(Before(auths, a, p), Matching(changes, a, |changes|))
  {
    if p > 0 {
      AppliedIsMinimum(auths, changes, a, p - 1);
      if SameClaim(auths[p - 1], a) {
        SameCounts(auths, changes, auths[p - 1], a, p - 1, |changes|);
      }
    }
  }

  /** Authorization matching. Exactly the applied authorizations keep their mark, the others are discarded;
      each applied one has a matching nonce change of its own; and every claim keeps the minimum of the
      number of authorizations and of nonce changes for it, which no matching exceeds. */
  lemma MatchingIsMaximum(auths: seq<Auth>, changes: seq<Change>)
    ensures DecidedFrom(auths, changes, 0, Discard(auths, changes, {}), Assign(auths, changes, {}))
    ensures IsAssignment(auths, changes, {}, Assign(auths, changes, {}))
    ensures forall a: Auth ::
      AppliedCount(auths, changes, a, |auths|) == Min(Before(auths, a, |auths|), Matching(changes, a, |changes|))
  {
    hide Applied, DecidedFrom, IsAssignment, Progress;
    ProgressStart(auths, changes);
    assert auths[0..] == auths;
    DiscardFrom(auths, changes, {}, 0);
    AssignInjective(auths, changes, {});
    forall a: Auth { AppliedIsMinimum(auths, changes, a, |auths|); }
  }

  lemma ProgressStart(auths: seq<Auth>, changes: seq<Change>)
    ensures Progress(auths, changes, {}, 0)
  {
    forall a: Auth { NothingTaken(changes, a, |changes|); }
  }

  // ---------------------------------------------------------------- no matching does better

  /** Number of authorizations of the claim of `a`, among the first `p`, that `m` assigns a nonce change. */
  function AssignedCount(auths: seq<Auth>, m: seq<Option<nat>>, a: Auth, p: nat): nat
    requires p <= |auths| == |m|
  {
    if p == 0 then 0
    else AssignedCount(auths, m, a, p - 1) + if SameClaim(auths[p - 1], a) && m[p - 1].Some? then 1 else 0
  }

  function Values(m: seq<Option<nat>>, p: nat): set<nat>
    requires p <= |m|
  {
    if p == 0 then {} else WithUsed(Values(m, p - 1), m[p - 1])
  }

  lemma {:induction false} ValuesAre(m: seq<Option<nat>>, p: nat)
    requires p <= |m|
    ensures forall v :: v in Values(m, p) <==> exists i :: 0 <= i < p && m[i] == Some(v)
  {
    if p > 0 {
      ValuesAre(m, p - 1);
    }
  }

  lemma {:induction false} AssignedTaken(auths: seq<Auth>, changes: seq<Change>, m: seq<Option<nat>>, a: Auth, p: nat)
    requires IsAssignment(auths, changes, {}, m) && p <= |auths|
    ensures AssignedCount(auths, m, a, p) == Taken(changes, Values(m, p), a, |changes|)
  {
    if p == 0 {
      NothingTaken(changes, a, |changes|);
    } else {
      AssignedTaken(auths, changes, m, a, p - 1);
      ValuesAre(m, p - 1);
      if m[p - 1].Some? {
        TakeOne(changes, Values(m, p - 1), a, m[p - 1].value, |changes|);
      }
    }
  }

  lemma {:induction false} AssignedBefore(auths: seq<Auth>, m: seq<Option<nat>>, a: Auth, p: nat)
    requires p <= |auths| == |m| && forall i :: 0 <= i < |m| && m[i].Some? ==> Recovered(auths[i])
    ensures AssignedCount(auths, m, a, p) <= Before(auths, a, p)
  {
    if p > 0 {
      AssignedBefore(auths, m, a, p - 1);
    }
  }

  /** No assignment of distinct matching nonce changes to recovered authorizations serves more of any claim
      than the greedy matching. */
  lemma NoneServesMore(auths: seq<Auth>, changes: seq<Change>, m: seq<Option<nat>>, a: Auth)
    requires IsAssignment(auths, changes, {}, m) && forall i :: 0 <= i < |m| && m[i].Some? ==> Recovered(auths[i])
    ensures AssignedCount(auths, m, a, |auths|) <= AppliedCount(auths, changes, a, |auths|)
  {
    AssignedTaken(auths, changes, m, a, |auths|);
    AllTaken(changes, Values(m, |auths|), a, |changes|);
    AssignedBefore(auths, m, a, |auths|);
    AppliedIsMinimum(auths, changes, a, |auths|);
  }
}
