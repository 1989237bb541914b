/** What a completed transaction says besides its calls: status, index, gas, return data, authorizations, receipt logs
    and preimages, in terms of the hook calls and the receipt alone (tracer.go:1130-1383). */
module Outcome {
  import opened Bytes
  import opened Wrappers
  import opened Model
  import opened Sorting
  import opened Completion
  import opened Machine
  import opened Ranges
  import opened Streams
  import opened Forest
  import opened Outline
  import opened RoundTrip
  import opened Reading
  import opened Told
  import opened Receipts
  import opened LeftPreimages
  import Authorizations
  import KeccakFilter
  import Nesting
  import Trees

  // ---------------------------------------------------------------- status, index, gas and return data

  /** The status of a transaction with a call. */
  predicate StatusIs(rootReverted: bool, receipt: Option<Receipt>, before: TxStatus, status: TxStatus) {
    && (status == Reverted <==> rootReverted || (receipt.None? && before == Reverted))
    && (!rootReverted && receipt.Some? ==> (status == Succeeded <==> receipt.value.status == 1))
    && (!rootReverted && receipt.Some? ==> (status == Failed <==> receipt.value.status != 1))
    && (!rootReverted && receipt.None? ==> status == before)
  }

  /** What the receipt and the first call decide. */
  ghost predicate HeaderIs(before: TxTrace, receipt: Option<Receipt>, t: TxTrace) {
    && |t.calls| > 0 && StatusIs(t.calls[0].statusReverted, receipt, before.status, t.status)
    && t.returnData == t.calls[0].returnData
    && (receipt.Some? ==> t.index == receipt.value.index && t.gasUsed == receipt.value.gasUsed)
    && (receipt.None? ==> t.index == before.index && t.gasUsed == before.gasUsed)
    && t.info == before.info && t.beginOrdinal == before.beginOrdinal
    && (t.receipt.Some? <==> receipt.Some? || before.receipt.Some?)
  }

  /** Whatever its body, a completed transaction with a call has the status, index, gas and return data that its receipt
      and its first call decide; one without has nothing but its end set. */
  lemma CompletedHeader(cfg: Config, trx: TxTrace, leftover: Lists, recorded: seq<Recorded>, receipt: Option<Receipt>,
                        end: nat)
    ensures var r := Complete(cfg, trx, leftover, recorded, receipt, end);
      r.Ok? ==> r.value.endOrdinal == end
                && if |trx.calls| > 0 then HeaderIs(trx, receipt, r.value) else r.value == trx.(endOrdinal := end)
  {
    hide ArrangedCalls, SettledCalls, CheckedAuths, AssignReceipt, Surviving, Sort;
  }

  // ---------------------------------------------------------------- authorizations

  /** How many signers before position `i` are that one, with the same nonce. */
  function Earlier(signers: seq<(Bytes, nat)>, signer: (Bytes, nat), i: nat): nat
    requires i <= |signers|
  {
    if i == 0 then 0 else Earlier(signers, signer, i - 1) + if signers[i - 1] == signer then 1 else 0
  }

  /** How many of the nonce changes move the signer's nonce from the signed one to the next, in 64 bits. */
  function Moves(nonces: seq<Body>, signer: (Bytes, nat)): nat {
    if |nonces| == 0 then 0
    else Moves(nonces[..|nonces| - 1], signer)
         + if nonces[|nonces| - 1] == Nonce(signer.0, signer.1, (signer.1 + 1) % 0x1_0000_0000_0000_0000) then 1 else 0
  }

  /** An authorization is discarded when its signer is unknown, or when earlier ones of the same signer and nonce use up
      the nonce changes of the first call that apply it. */
  predicate AuthsTold(signers: seq<(Bytes, nat)>, nonces: seq<Body>, auths: seq<Auth>) {
    |auths| == |signers| && forall i :: 0 <= i < |auths| ==>
      && auths[i].authority == signers[i].0 && auths[i].nonce == signers[i].1
      && (auths[i].discarded <==> |signers[i].0| == 0 || Earlier(signers, signers[i], i) >= Moves(nonces, signers[i]))
  }

  lemma {:induction false} EarlierIsBefore(signers: seq<(Bytes, nat)>, a: Auth, i: nat)
    requires i <= |signers| && |a.authority| > 0
    ensures Authorizations.Before(AuthsOf(signers), a, i) == Earlier(signers, (a.authority, a.nonce), i)
    decreases i
  {
    if i > 0 {
      EarlierIsBefore(signers, a, i - 1);
    }
  }

  lemma {:induction false} MovesAreMatching(changes: seq<Change>, nonces: seq<Body>, a: Auth, n: nat)
    requires BodiesAre(changes, nonces) && n <= |changes|
    ensures Authorizations.Matching(changes, a, n) == Moves(nonces[..n], (a.authority, a.nonce))
    decreases n
  {
    if n > 0 {
      MovesAreMatching(changes, nonces, a, n - 1);
      assert nonces[..n][..n - 1] == nonces[..n - 1];
    }
  }

  /** The one of `auths` at position `i` is decided as the matching says. */
  lemma DecidedAt(auths: seq<Auth>, changes: seq<Change>, i: nat)
    requires i < |auths|
    ensures var r := Discard(auths, changes, {});
      |r| == |auths|
      && r[i] == auths[i].(discarded := auths[i].discarded || !Authorizations.Applied(auths, changes, i))
  {
    hide Discard, Authorizations.Assign, Authorizations.IsAssignment, Authorizations.Applied;
    hide Authorizations.AppliedCount, Authorizations.Before, Authorizations.Matching;
    Authorizations.MatchingIsMaximum(auths, changes);
    assert Discard(auths, changes, {})[i - 0]
        == auths[i].(discarded := auths[i].discarded || !Authorizations.Applied(auths, changes, i));
  }

  lemma AppliedTold(signers: seq<(Bytes, nat)>, changes: seq<Change>, nonces: seq<Body>, i: nat)
    requires BodiesAre(changes, nonces) && i < |signers|
    ensures Authorizations.Applied(AuthsOf(signers), changes, i)
       <==> |signers[i].0| > 0 && Earlier(signers, signers[i], i) < Moves(nonces, signers[i])
  {
    var a := AuthsOf(signers)[i];
    if |signers[i].0| > 0 {
      EarlierIsBefore(signers, a, i);
      MovesAreMatching(changes, nonces, a, |changes|);
      assert nonces[..|changes|] == nonces;
    }
    hide Authorizations.Before, Authorizations.Matching, Earlier, Moves;
  }

  lemma DiscardTold(signers: seq<(Bytes, nat)>, changes: seq<Change>, nonces: seq<Body>)
    requires BodiesAre(changes, nonces)
    ensures AuthsTold(signers, nonces, Discard(AuthsOf(signers), changes, {}))
  {
    hide Discard, Authorizations.Applied, Earlier, Moves;
    var auths := AuthsOf(signers);
    var r := Discard(auths, changes, {});
    assert |r| == |auths| by { Authorizations.MatchingIsMaximum(auths, changes); }
    forall i | 0 <= i < |signers|
      ensures r[i].authority == signers[i].0 && r[i].nonce == signers[i].1
      ensures r[i].discarded <==> |signers[i].0| == 0 || Earlier(signers, signers[i], i) >= Moves(nonces, signers[i])
    {
      DecidedAt(auths, changes, i);
      AppliedTold(signers, changes, nonces, i);
    }
  }

  /** The signed nonces decided by the first call's own nonce changes, whatever the body: those of the completed first
      call without the ones that were left over. */
  lemma CompletedAuths(cfg: Config, trx: TxTrace, signers: seq<(Bytes, nat)>, leftover: Lists, recorded: seq<Recorded>,
                       receipt: Option<Receipt>, end: nat, nonces: seq<Body>)
    requires |trx.calls| > 0 && trx.auths == AuthsOf(signers)
    requires var r := Complete(cfg, trx, leftover, recorded, receipt, end);
      r.Ok? && exists extra :: BodiesAre(leftover.nonce, extra)
                               && BodiesAre(r.value.calls[0].lists.nonce, nonces + extra)
    ensures AuthsTold(signers, nonces, Complete(cfg, trx, leftover, recorded, receipt, end).value.auths)
  {
    hide PairLogs, ReceiptBefore, Propagate, Attach, Discard, AuthsTold;
    SortOrders(CallIndex, trx.calls);
    var root := SortCalls(trx.calls)[0];
    var t := Complete(cfg, trx, leftover, recorded, receipt, end).value;
    FirstCallNonces(cfg, trx.calls, leftover, recorded);
    assert t.calls[0].lists.nonce == root.lists.nonce + leftover.nonce;
    var extra :| BodiesAre(leftover.nonce, extra) && BodiesAre(t.calls[0].lists.nonce, nonces + extra);
    forall i | 0 <= i < |root.lists.nonce| ensures root.lists.nonce[i].body == nonces[i] {
      assert t.calls[0].lists.nonce[i] == root.lists.nonce[i];
    }
    DiscardTold(signers, root.lists.nonce, nonces);
  }

  lemma FirstCallNonces(cfg: Config, calls: seq<CallRec>, leftover: Lists, recorded: seq<Recorded>)
    requires |calls| > 0
    ensures var r := SettledCalls(cfg, ArrangedCalls(calls, leftover, recorded));
      r.Ok? ==> |SortCalls(calls)| > 0 && r.value[0].lists.nonce == SortCalls(calls)[0].lists.nonce + leftover.nonce
  {
    hide Attach;
    SortOrders(CallIndex, calls);
    var sorted := SortCalls(calls);
    var rooted := sorted[0 := sorted[0].(lists := Concat(sorted[0].lists, leftover))];
    AttachKeeps(rooted, recorded);
    PropagateMarks(ArrangedCalls(calls, leftover, recorded), []);
  }

  // ---------------------------------------------------------------- receipt logs

  /** Log `x` of a call counts for the receipt: its call is not reverted, or it is one that never is. */
  ghost predicate Counts(cfg: Config, calls: seq<CallRec>, x: Change) {
    exists i :: 0 <= i < |calls| && x in calls[i].lists.logs
                && (!calls[i].stateReverted || (x.body.Log? && cfg.neverReverted(x.body.log)))
  }

  lemma {:induction false} KeptAre(cfg: Config, logs: seq<Change>, x: Change)
    ensures x in KeepNeverReverted(cfg, logs) <==> x in logs && x.body.Log? && cfg.neverReverted(x.body.log)
    decreases |logs|
  {
    if |logs| > 0 {
      KeptAre(cfg, logs[..|logs| - 1], x);
      assert logs == logs[..|logs| - 1] + [logs[|logs| - 1]];
    }
  }

  lemma {:induction false} SurvivorsCount(cfg: Config, calls: seq<CallRec>, x: Change)
    ensures x in Surviving(cfg, calls) <==> Counts(cfg, calls, x)
    decreases |calls|
  {
    if |calls| > 0 {
      var n := |calls| - 1;
      var front, c := calls[..n], calls[n];
      SurvivorsCount(cfg, front, x);
      KeptAre(cfg, c.lists.logs, x);
      if Counts(cfg, front, x) {
        var i :| 0 <= i < |front| && x in front[i].lists.logs
                 && (!front[i].stateReverted || (x.body.Log? && cfg.neverReverted(x.body.log)));
        assert x in calls[i].lists.logs;
      }
      if Counts(cfg, calls, x) {
        var i :| 0 <= i < |calls| && x in calls[i].lists.logs
                 && (!calls[i].stateReverted || (x.body.Log? && cfg.neverReverted(x.body.log)));
        assert i < n ==> x in front[i].lists.logs;
      }
    }
  }

  /** Receipt log `r` is call log `x`. */
  predicate IsLog(r: ReceiptLog, x: Change) {
    x.body.Log? && r.ordinal == x.ordinal && r.index == x.body.index && r.blockIndex == x.body.blockIndex
  }

  /** The receipt has the chain's logs in the chain's order, in increasing order of ordinal and index; each is a call
      log that counts, and each call log that counts is one of them. */
  ghost predicate ReceiptTold(cfg: Config, t: TxTrace, given: Receipt) {
    && t.receipt.Some? && |t.receipt.value.logs| == |given.logs|
    && (var logs := t.receipt.value.logs;
        && (forall k :: 0 <= k < |logs| ==> logs[k].log == given.logs[k].0 && logs[k].blockIndex == given.logs[k].1)
        && (forall j, k :: 0 <= j < k < |logs| ==> logs[j].ordinal < logs[k].ordinal && logs[j].index < logs[k].index)
        && Matched(cfg, t.calls, logs))
  }

  ghost predicate Comes(cfg: Config, calls: seq<CallRec>, r: ReceiptLog) {
    exists x :: Counts(cfg, calls, x) && IsLog(r, x)
  }

  ghost predicate Shows(logs: seq<ReceiptLog>, x: Change) {
    exists k :: 0 <= k < |logs| && IsLog(logs[k], x)
  }

  ghost predicate Matched(cfg: Config, calls: seq<CallRec>, logs: seq<ReceiptLog>) {
    && (forall k :: 0 <= k < |logs| ==> Comes(cfg, calls, logs[k]))
    && forall x :: Counts(cfg, calls, x) ==> Shows(logs, x)
  }

  lemma EmittedCount(cfg: Config, calls: seq<CallRec>, sorted: seq<Change>, x: Change)
    requires multiset(sorted) == multiset(Surviving(cfg, calls))
    ensures x in sorted <==> Counts(cfg, calls, x)
  {
    hide Counts, Surviving;
    SurvivorsCount(cfg, calls, x);
    assert x in sorted <==> x in multiset(sorted);
    assert x in Surviving(cfg, calls) <==> x in multiset(Surviving(cfg, calls));
  }

  lemma EmittedMatch(cfg: Config, calls: seq<CallRec>, sorted: seq<Change>, logs: seq<ReceiptLog>)
    requires |logs| == |sorted| && forall i :: 0 <= i < |sorted| ==> Paired(sorted[i], logs[i])
    requires forall x :: x in sorted <==> Counts(cfg, calls, x)
    ensures Matched(cfg, calls, logs)
  {
    forall k | 0 <= k < |logs| ensures Comes(cfg, calls, logs[k]) {
      assert sorted[k] in sorted && Paired(sorted[k], logs[k]) && IsLog(logs[k], sorted[k]);
    }
    forall x | Counts(cfg, calls, x) ensures Shows(logs, x) {
      assert x in sorted;
      var k :| 0 <= k < |sorted| && sorted[k] == x;
      assert Paired(sorted[k], logs[k]) && IsLog(logs[k], x);
    }
  }

  lemma EmittedInOrder(sorted: seq<Change>, logs: seq<ReceiptLog>)
    requires |logs| == |sorted| && forall i :: 0 <= i < |sorted| ==> Paired(sorted[i], logs[i])
    requires StrictlyOrdered(ChangeOrdinal, sorted)
    requires forall i :: 0 <= i < |sorted| ==> sorted[i].body.Log?
    requires forall i, j :: 0 <= i < j < |sorted| ==> sorted[i].body.index < sorted[j].body.index
    ensures forall j, k :: 0 <= j < k < |logs| ==> logs[j].ordinal < logs[k].ordinal && logs[j].index < logs[k].index
  {
    forall j, k | 0 <= j < k < |logs| ensures logs[j].ordinal < logs[k].ordinal && logs[j].index < logs[k].index {
      assert Paired(sorted[j], logs[j]) && Paired(sorted[k], logs[k]);
      assert ChangeOrdinal(sorted[j]) < ChangeOrdinal(sorted[k]);
    }
  }

  lemma SettledIsTold(cfg: Config, t: TxTrace, given: Receipt)
    requires |t.calls| > 0 && LogsSettled(cfg, t, Some(given))
    ensures ReceiptTold(cfg, t, given)
  {
    hide Counts, Surviving, Sort, RevertedCleared, IsLog, Paired;
    var sorted, logs := Emitted(cfg, t.calls), t.receipt.value.logs;
    forall x ensures x in sorted <==> Counts(cfg, t.calls, x) {
      EmittedCount(cfg, t.calls, sorted, x);
    }
    EmittedMatch(cfg, t.calls, sorted, logs);
    EmittedInOrder(sorted, logs);
    hide Emitted;
  }

  /** Whenever a transaction with a call and a receipt completes, whatever its body. */
  lemma ReceiptIsTold(cfg: Config, prague: bool, st: Stream, base: nat)
    ensures var t := Trace(cfg, prague, st, base);
      t.Ok? && t.value.trx.Some? && |t.value.trx.value.calls| > 0 && st.receipt.Some? ==>
        ReceiptTold(cfg, t.value.trx.value, st.receipt.value)
  {
    hide Trace, LogsSettled, ReceiptTold;
    ReceiptsAgree(cfg, prague, st, base);
    var t := Trace(cfg, prague, st, base);
    if t.Ok? && t.value.trx.Some? && |t.value.trx.value.calls| > 0 && st.receipt.Some? {
      SettledIsTold(cfg, t.value.trx.value, st.receipt.value);
    }
  }

  // ---------------------------------------------------------------- log indexes

  function Emits(es: seq<TxEvent>): nat {
    if |es| == 0 then 0 else Emits(es[..|es| - 1]) + if es[|es| - 1].Emit? then 1 else 0
  }

  /** `x` is one of the logs reported by `es`, numbered from zero in the order of the reports. */
  ghost predicate ReportedLog(es: seq<TxEvent>, x: Change) {
    exists k :: 0 <= k < |es| && es[k].Emit? && x.body == Log(es[k].log, Emits(es[..k]), es[k].blockIndex)
  }

  lemma ReportedLater(es: seq<TxEvent>, e: TxEvent, x: Change)
    ensures ReportedLog(es, x) ==> ReportedLog(es + [e], x)
    ensures e.Emit? && x.body == Log(e.log, Emits(es), e.blockIndex) ==> ReportedLog(es + [e], x)
    ensures Emits(es + [e]) == Emits(es) + if e.Emit? then 1 else 0
  {
    var all := es + [e];
    assert all[..|es|] == es && all[|es|] == e;
    if ReportedLog(es, x) {
      var k :| 0 <= k < |es| && es[k].Emit? && x.body == Log(es[k].log, Emits(es[..k]), es[k].blockIndex);
      assert all[..k] == es[..k] && all[k] == es[k];
    }
  }

  lemma {:induction false} LogsReported(ctx: Ctx, w: Work, ord: nat, done: seq<TxEvent>, es: seq<TxEvent>, x: Change)
    requires RunWork(ctx, w, ord, es).Ok? && w.logIndex == Emits(done)
    requires forall y :: Receipts.Holds(w, y) ==> ReportedLog(done, y)
    requires Receipts.Holds(RunWork(ctx, w, ord, es).value.0, x)
    ensures ReportedLog(done + es, x)
    decreases |es|
  {
    hide StepWork, Receipts.Holds, ReportedLog;
    if |es| == 0 {
      assert done + es == done;
    } else {
      var r := StepWork(ctx, w, ord, es[0]).value;
      EventFacts(ctx, w, ord, es[0]);
      forall y | Receipts.Holds(r.0, y) ensures ReportedLog(done + [es[0]], y) {
        EventLogs(ctx, w, ord, es[0], y);
        ReportedLater(done, es[0], y);
      }
      ReportedLater(done, es[0], x);
      LogsReported(ctx, r.0, r.1, done + [es[0]], es[1..], x);
      assert done + [es[0]] + es[1..] == done + es;
    }
  }

  /** `x` is such a log, up to its block index. */
  ghost predicate NumberedLog(es: seq<TxEvent>, x: Change) {
    exists k :: 0 <= k < |es| && es[k].Emit? && x.body.Log? && x.body.log == es[k].log && x.body.index == Emits(es[..k])
  }

  /** Every log of a completed transaction, whatever its body, is numbered by how many logs were reported before it. */
  lemma LogsNumbered(cfg: Config, prague: bool, st: Stream, base: nat, x: Change)
    ensures var t := Trace(cfg, prague, st, base);
      t.Ok? && t.value.trx.Some? && HasLog(t.value.trx.value.calls, x) ==> NumberedLog(st.body, x)
  {
    hide RunWork, SettledCalls, ArrangedCalls, PairLogs, CheckedAuths, ReceiptBefore, HasLog, ReportedLog, NumberedLog;
    var t, w0 := Trace(cfg, prague, st, base), FirstWork(st, base);
    if t.Ok? && t.value.trx.Some? && HasLog(t.value.trx.value.calls, x) {
      var r := RunWork(Ctx(true, prague, false, false), w0, base + 1, st.body).value;
      var trx := r.0.trx.value;
      NothingHeld(w0);
      assert [] + st.body == st.body;
      if |trx.calls| == 0 {
        assert Receipts.Holds(r.0, x);
        LogsReported(Ctx(true, prague, false, false), w0, base + 1, [], st.body, x);
        ReportedIsNumbered(st.body, x, x);
      } else {
        var arranged := ArrangedCalls(trx.calls, r.0.deferred, r.0.preimages);
        var y := SettledLogs(cfg, arranged, x);
        ArrangedLogs(trx.calls, r.0.deferred, r.0.preimages, y);
        LogsReported(Ctx(true, prague, false, false), w0, base + 1, [], st.body, y);
        ReportedIsNumbered(st.body, y, x);
      }
    }
  }

  lemma NothingHeld(w: Work)
    requires w.stack == [] && w.deferred == NO_CHANGES && (w.trx.Some? ==> w.trx.value.calls == [])
    ensures forall y :: !Receipts.Holds(w, y)
  {
  }

  lemma ReportedIsNumbered(es: seq<TxEvent>, y: Change, x: Change)
    requires ReportedLog(es, y) && (x == y || (y.body.Log? ==> SameEmission(x, y)))
    ensures NumberedLog(es, x)
  {
  }

  // ---------------------------------------------------------------- preimages

  /** `recorded` holds the preimages hashed in `f`. */
  lemma {:induction false} LeavesHashed(h: Holder, es: seq<TxEvent>, env: Env)
    requires forall i :: 0 <= i < |es| ==> LeafAllowed(es[i], h.Inside?)
    ensures var r := LeavesOn(h, es, env);
      && r.1.preimages == env.preimages + HashedBy(es, if h.Inside? then h.c.index else 0)
      && r.1.index == env.index && (h.Inside? ==> r.0.c.index == h.c.index)
    decreases |es|
  {
    hide LeafOnCall, LeafOutside, NextOrdinal, NextLogIndex;
    if |es| > 0 {
      if h.Inside? {
        SameNumber(h.c, es[0], env);
      }
      assert LeafAllowed(es[0], h.Inside?);
      LeavesHashed(LeafOn(h, es[0], env), es[1..], After(h, es[0], env));
    }
  }

  ghost predicate Hashed(f: Items, h: Holder, env: Env, b: Built) {
    && b.env.preimages == env.preimages + HashedIn(f, if h.Inside? then h.c.index else 0, env.index + 1)
    && b.env.index == env.index + CallsIn(f) && (h.Inside? ==> b.h.Inside? && b.h.c.index == h.c.index)
  }

  lemma {:induction false} BuildHashed(ctx: Ctx, reader: bool, f: Items, depth: nat, h: Holder, env: Env)
    requires WellFormed(f, h.Inside?)
    ensures Hashed(f, h, env, Build(ctx, reader, f, depth, h, env))
    decreases f
  {
    hide LeafOn, After, LeavesOn, Closed, DelegationOf, Hashed;
    match f
    case Done => NothingHashed(h, env);
    case Leaf(e, rest) =>
      LeavesHashed(h, [e], env);
      LeavesSingle(h, e, env);
      BuildHashed(ctx, reader, rest, depth, LeafOn(h, e, env), After(h, e, env));
      HashedLater(f, rest, [e], h, env, LeafOn(h, e, env), After(h, e, env),
                  Build(ctx, reader, rest, depth, LeafOn(h, e, env), After(h, e, env)));
    case Destruct(_, _, leaves, _, rest) =>
      assert forall i :: 0 <= i < |leaves| ==> LeafAllowed(leaves[i], h.Inside?);
      LeavesHashed(h, leaves, env);
      var r := LeavesOn(h, leaves, env);
      BuildHashed(ctx, reader, rest, depth, r.0, r.1);
      HashedLater(f, rest, leaves, h, env, r.0, r.1, Build(ctx, reader, rest, depth, r.0, r.1));
    case Sub(frame, inner, exit, rest) =>
      var child, env1 := Child(ctx, reader, frame, depth, h, env), env.(ord := env.ord + 1, index := env.index + 1);
      BuildHashed(ctx, reader, inner, depth + 1, Inside(child), env1);
      var i := Build(ctx, reader, inner, depth + 1, Inside(child), env1);
      var h2, env2 := if h.Outside? then Outside(NO_CHANGES) else h, i.env.(ord := i.env.ord + 1);
      BuildHashed(ctx, reader, rest, depth, h2, env2);
      SubHashed(f, h, env, child, env1, i, h2, env2, Build(ctx, reader, rest, depth, h2, env2),
                Build(ctx, reader, f, depth, h, env));
  }

  lemma NothingHashed(h: Holder, env: Env)
    ensures Hashed(Done, h, env, Built(h, [], [], env))
  {
  }

  lemma HashedLater(f: Items, rest: Items, es: seq<TxEvent>, h: Holder, env: Env, h1: Holder, env1: Env, b: Built)
    requires (f.Leaf? && es == [f.e] && rest == f.rest) || (f.Destruct? && es == f.leaves && rest == f.rest)
    requires env1.preimages == env.preimages + HashedBy(es, if h.Inside? then h.c.index else 0)
    requires env1.index == env.index && h1.Inside? == h.Inside? && (h.Inside? ==> h1.c.index == h.c.index)
    requires Hashed(rest, h1, env1, b)
    ensures Hashed(f, h, env, b)
  {
    hide HashedBy;
    var current := if h.Inside? then h.c.index else 0;
    assert (env.preimages + HashedBy(es, current)) + HashedIn(rest, current, env.index + 1)
        == env.preimages + (HashedBy(es, current) + HashedIn(rest, current, env.index + 1));
  }

  lemma SubHashed(f: Items, h: Holder, env: Env, child: CallRec, env1: Env, i: Built, h2: Holder, env2: Env, r: Built,
                  b: Built)
    requires f.Sub? && child.index == env.index + 1 && env1.index == env.index + 1 && env1.preimages == env.preimages
    requires Hashed(f.inner, Inside(child), env1, i)
    requires env2.index == i.env.index && env2.preimages == i.env.preimages
    requires h2.Inside? == h.Inside? && (h.Inside? ==> h2.c.index == h.c.index)
    requires Hashed(f.rest, h2, env2, r) && b.env == r.env && b.h == r.h
    ensures Hashed(f, h, env, b)
  {
    var current := if h.Inside? then h.c.index else 0;
    var inner := HashedIn(f.inner, env.index + 1, env.index + 2);
    var rest := HashedIn(f.rest, current, env.index + 2 + CallsIn(f.inner));
    assert (env.preimages + inner) + rest == env.preimages + (inner + rest);
  }

  lemma LeavesSingle(h: Holder, e: TxEvent, env: Env)
    ensures LeavesOn(h, [e], env) == (LeafOn(h, e, env), After(h, e, env))
  {
    assert [e][1..] == [];
  }

  /** One of the changes writes the slot `key`. */
  ghost predicate WritesSlot(storage: seq<Change>, key: Bytes) {
    exists j :: 0 <= j < |storage| && storage[j].body.Storage? && storage[j].body.key == key
  }

  /** Some call writes the slot `key`. */
  ghost predicate Writes(calls: seq<CallRec>, key: Bytes) {
    exists i :: 0 <= i < |calls| && WritesSlot(calls[i].lists.storage, key)
  }

  lemma WritesLast(calls: seq<CallRec>, key: Bytes)
    requires |calls| > 0
    ensures Writes(calls, key)
       <==> Writes(calls[..|calls| - 1], key) || WritesSlot(calls[|calls| - 1].lists.storage, key)
  {
    hide WritesSlot;
    var front := calls[..|calls| - 1];
    if Writes(front, key) {
      var i :| 0 <= i < |front| && WritesSlot(front[i].lists.storage, key);
      assert WritesSlot(calls[i].lists.storage, key);
    }
    if Writes(calls, key) {
      var i :| 0 <= i < |calls| && WritesSlot(calls[i].lists.storage, key);
      assert i < |front| ==> WritesSlot(front[i].lists.storage, key);
    }
  }

  lemma {:induction false} KeysAreWritten(calls: seq<CallRec>, key: Bytes)
    ensures key in AllStorageKeys(calls) <==> Writes(calls, key)
    decreases |calls|
  {
    hide Writes, WritesSlot, StorageKeys;
    if |calls| > 0 {
      KeysAreWritten(calls[..|calls| - 1], key);
      CallKeys(calls[|calls| - 1].lists.storage, key);
      WritesLast(calls, key);
    } else {
      NothingWritten(key);
    }
  }

  lemma NothingWritten(key: Bytes)
    ensures !Writes([], key)
  {
  }

  lemma {:induction false} CallKeys(storage: seq<Change>, key: Bytes)
    ensures key in StorageKeys(storage) <==> WritesSlot(storage, key)
    decreases |storage|
  {
    if |storage| > 0 {
      var n := |storage| - 1;
      CallKeys(storage[..n], key);
      assert storage == storage[..n] + [storage[n]];
    }
  }

  /** Call `k` hashed `p` to `h`, and nothing else to `h` before. */
  ghost predicate HashedFirst(recorded: seq<Recorded>, k: nat, h: Word, p: Bytes) {
    exists i :: 0 <= i < |recorded| && recorded[i] == KeccakFilter.Recorded(k, h, p)
                && forall j :: 0 <= j < i ==> !(recorded[j].callIndex == k && recorded[j].hash == h)
  }

  /** `h` explains a written slot, over at most 16 hashes. */
  ghost predicate ExplainsSlot(calls: seq<CallRec>, recorded: seq<Recorded>, h: Word) {
    exists keys: seq<Bytes> :: (forall key :: key in keys <==> Writes(calls, key))
                               && KeccakFilter.Reaches(keys, recorded, 16, h)
  }

  /** Each call shows the first preimage it hashed of every hash that explains a written slot, and nothing else. */
  ghost predicate PreimagesTold(calls: seq<CallRec>, recorded: seq<Recorded>) {
    forall i, h: Word, p: Bytes :: 0 <= i < |calls| ==>
      ((h in calls[i].keccak && calls[i].keccak[h] == p)
       <==> HashedFirst(recorded, calls[i].index, h, p) && ExplainsSlot(calls, recorded, h))
  }

  lemma {:induction false} OfCallFirst(recorded: seq<Recorded>, k: nat, h: Word, p: Bytes)
    ensures HashedFirst(recorded, k, h, p)
       <==> h in KeccakFilter.Hashes(OfCall(recorded, k)) && KeccakFilter.FirstPreimage(OfCall(recorded, k), h) == p
    decreases |recorded|
  {
    if |recorded| > 0 {
      var first, rest := recorded[0], recorded[1..];
      OfCallFirst(rest, k, h, p);
      var own, later := OfCall(recorded, k), OfCall(rest, k);
      if first.callIndex == k {
        assert own == [first] + later && own[0] == first && own[1..] == later;
      } else {
        assert own == later;
      }
      HashedFirstNext(recorded, k, h, p);
      assert first.callIndex == k && first.hash == h ==> first in own;
      assert first.callIndex == k && first.hash != h ==> forall r :: r in own <==> r == first || r in later;
    }
  }

  lemma HashedFirstNext(recorded: seq<Recorded>, k: nat, h: Word, p: Bytes)
    requires |recorded| > 0
    ensures HashedFirst(recorded, k, h, p)
       <==> if recorded[0].callIndex == k && recorded[0].hash == h then recorded[0].preimage == p
            else HashedFirst(recorded[1..], k, h, p)
  {
    var first, rest := recorded[0], recorded[1..];
    if first.callIndex == k && first.hash == h {
      assert first.preimage == p ==> recorded[0] == KeccakFilter.Recorded(k, h, p);
    } else {
      if HashedFirst(rest, k, h, p) {
        var i :| 0 <= i < |rest| && rest[i] == KeccakFilter.Recorded(k, h, p)
                 && forall j :: 0 <= j < i ==> !(rest[j].callIndex == k && rest[j].hash == h);
        assert recorded[i + 1] == rest[i] && forall j :: 0 < j < i + 1 ==> recorded[j] == rest[j - 1];
      }
      if HashedFirst(recorded, k, h, p) {
        var i :| 0 <= i < |recorded| && recorded[i] == KeccakFilter.Recorded(k, h, p)
                 && forall j :: 0 <= j < i ==> !(recorded[j].callIndex == k && recorded[j].hash == h);
        assert i > 0 && rest[i - 1] == recorded[i] && forall j :: 0 <= j < i - 1 ==> rest[j] == recorded[j + 1];
      }
    }
  }

  lemma {:induction false} SameKeysReach(keys: seq<Bytes>, keys': seq<Bytes>, recorded: seq<Recorded>, n: nat, h: Word)
    requires forall key :: key in keys <==> key in keys'
    ensures KeccakFilter.Reaches(keys, recorded, n, h) <==> KeccakFilter.Reaches(keys', recorded, n, h)
    decreases n, 0
  {
    hide KeccakFilter.Nearest, KeccakFilter.Leads;
    if n > 0 {
      SameKeysReach(keys, keys', recorded, n - 1, h);
      SameKeysReachAll(keys, keys', recorded, n - 1);
    }
  }

  lemma {:induction false} SameKeysReachAll(keys: seq<Bytes>, keys': seq<Bytes>, recorded: seq<Recorded>, n: nat)
    requires forall key :: key in keys <==> key in keys'
    ensures forall h :: KeccakFilter.Reaches(keys, recorded, n, h) <==> KeccakFilter.Reaches(keys', recorded, n, h)
    decreases n, 1
  {
    hide KeccakFilter.Reaches;
    forall h ensures KeccakFilter.Reaches(keys, recorded, n, h) <==> KeccakFilter.Reaches(keys', recorded, n, h) {
      SameKeysReach(keys, keys', recorded, n, h);
    }
  }

  lemma KeptExplains(calls: seq<CallRec>, recorded: seq<Recorded>, h: Word)
    ensures h in KeccakFilter.Kept(AllStorageKeys(calls), recorded) <==> ExplainsSlot(calls, recorded, h)
  {
    hide KeccakFilter.Kept, KeccakFilter.Reaches, KeccakFilter.Within, Writes, AllStorageKeys;
    var keys := AllStorageKeys(calls);
    KeccakFilter.ReachesAreWithin(keys, recorded, 16);
    forall key: Bytes ensures key in keys <==> Writes(calls, key) {
      KeysAreWritten(calls, key);
    }
    if keys': seq<Bytes> :| (forall key :: key in keys' <==> Writes(calls, key))
                            && KeccakFilter.Reaches(keys', recorded, 16, h) {
      SameKeysReach(keys, keys', recorded, 16, h);
    }
  }

  ghost predicate DistinctIndexes(calls: seq<CallRec>) {
    forall i, j :: 0 <= i < j < |calls| ==> calls[i].index != calls[j].index
  }

  lemma AttachedTold(calls: seq<CallRec>, recorded: seq<Recorded>, done: seq<CallRec>)
    requires NoneShown(calls) && DistinctIndexes(calls) && |done| == |calls|
    requires forall i :: 0 <= i < |calls| ==> done[i].index == calls[i].index
                                              && done[i].lists.storage == calls[i].lists.storage
                                              && done[i].keccak == Attach(calls, recorded)[i].keccak
    ensures PreimagesTold(done, recorded)
  {
    hide KeccakFilter.Kept, ExplainsSlot, HashedFirst, AllStorageKeys, KeccakFilter.Hashes, KeccakFilter.FirstPreimage;
    SameStorageKeys(done, calls);
    forall i, h: Word, p: Bytes | 0 <= i < |done|
      ensures (h in done[i].keccak && done[i].keccak[h] == p)
         <==> HashedFirst(recorded, done[i].index, h, p) && ExplainsSlot(done, recorded, h)
    {
      assert LastWithIndex(calls, i);
      KeptExplains(done, recorded, h);
      OfCallFirst(recorded, done[i].index, h, p);
    }
  }

  ghost predicate NothingShown(w: Work) { NoneShown(w.stack) && (w.trx.Some? ==> NoneShown(w.trx.value.calls)) }

  lemma StepShowsNothing(ctx: Ctx, w: Work, ord: nat, e: TxEvent)
    requires NothingShown(w) && StepWork(ctx, w, ord, e).Ok?
    ensures NothingShown(StepWork(ctx, w, ord, e).value.0)
  {
    hide DelegationOf, Records, RecordOf, AddTo;
  }

  /** While a transaction is under way its calls show no preimages. */
  lemma {:induction false} RunShowsNothing(ctx: Ctx, w: Work, ord: nat, es: seq<TxEvent>)
    requires NothingShown(w) && RunWork(ctx, w, ord, es).Ok?
    ensures NothingShown(RunWork(ctx, w, ord, es).value.0)
    decreases |es|
  {
    hide StepWork, NothingShown;
    if |es| > 0 {
      StepShowsNothing(ctx, w, ord, es[0]);
      var r := StepWork(ctx, w, ord, es[0]).value;
      RunShowsNothing(ctx, r.0, r.1, es[1..]);
    }
  }

  lemma CompletedPreimages(cfg: Config, trx: TxTrace, leftover: Lists, recorded: seq<Recorded>,
                           receipt: Option<Receipt>, end: nat)
    requires |trx.calls| > 0 && NoneShown(trx.calls)
    requires var r := Complete(cfg, trx, leftover, recorded, receipt, end); r.Ok? && DistinctIndexes(r.value.calls)
    ensures PreimagesTold(Complete(cfg, trx, leftover, recorded, receipt, end).value.calls, recorded)
  {
    hide Attach, SettledCalls, PairLogs, CheckedAuths, ReceiptBefore, Concat;
    SortedElements(CallIndex, trx.calls);
    var sorted := SortCalls(trx.calls);
    var rooted := sorted[0 := sorted[0].(lists := Concat(sorted[0].lists, leftover))];
    var arranged := ArrangedCalls(trx.calls, leftover, recorded);
    var calls := Complete(cfg, trx, leftover, recorded, receipt, end).value.calls;
    AttachKeeps(rooted, recorded);
    SettledKeeps(cfg, arranged);
    forall i | 0 <= i < |rooted|
      ensures calls[i].index == rooted[i].index && calls[i].lists.storage == rooted[i].lists.storage
      ensures calls[i].keccak == Attach(rooted, recorded)[i].keccak
    {
      assert arranged[i] == rooted[i].(keccak := arranged[i].keccak);
    }
    assert DistinctIndexes(rooted) by {
      forall i, j | 0 <= i < j < |rooted| ensures rooted[i].index != rooted[j].index {
        assert calls[i].index != calls[j].index;
      }
    }
    AttachedTold(rooted, recorded, calls);
  }

  // ---------------------------------------------------------------- the whole transaction

  /** What the first call, the receipt and the hook calls of a forest say of the transaction made from it. */
  ghost predicate OutcomeTold(cfg: Config, st: Stream, f: Items, base: nat, t: TxTrace) {
    && t.info == st.tx && t.beginOrdinal == base + 1
    && if CallsIn(f) == 0
       then && t.status == UnknownStatus && t.index == 0 && t.gasUsed == 0 && t.returnData == [] && t.receipt.None?
            && |t.auths| == |st.signers|
            && forall i :: 0 <= i < |t.auths| ==>
                 t.auths[i] == Auth(st.signers[i].0, st.signers[i].1, |st.signers[i].0| == 0)
       else
         var first := ReportsOf(f)[0];
         && StatusIs(first.exit.reverted && Gasless(first.exit.err), st.receipt, UnknownStatus, t.status)
         && (t.returnData == if first.frame.typ == 0xf0 || first.frame.typ == 0xf5 then [] else first.exit.output)
         && (t.index == if st.receipt.Some? then st.receipt.value.index else 0)
         && (t.gasUsed == if st.receipt.Some? then st.receipt.value.gasUsed else 0)
         && AuthsTold(st.signers, NoncesIn(first.before) + NoncesIn(first.own), t.auths)
         && PreimagesTold(t.calls, HashedIn(f, 0, 1))
         && (st.receipt.Some? ==> ReceiptTold(cfg, t, st.receipt.value)) && (st.receipt.None? ==> t.receipt.None?)
  }

  lemma TrailingNonces(prague: bool, st: Stream, f: Items, base: nat)
    requires WellFormed(f, false)
    ensures var b := BodyTrace(prague, st.reader, f, base);
      b.h.Outside? && BodiesAre(b.h.d.nonce, NoncesIn(Trailing(f, [])))
  {
    hide BodyTrace, Nesting.BuiltLaws, Reporting, Trailing;
    var b := BodyTrace(prague, st.reader, f, base);
    BodyLaws(prague, st.reader, f, base);
    NothingBlank();
    NothingWaits();
    NoLeaves();
    TrailingWaits(f, [], NO_CHANGES);
    Kinds(Trailing(f, []), false);
    assert BlankLists(b.h.d) == Reporting(NO_CHANGES, Trailing(f, []), false);
    NoncesBlank(b.h.d, Trailing(f, []));
  }

  lemma NoncesBlank(l: Lists, es: seq<TxEvent>)
    requires BlankLists(l) == Reporting(NO_CHANGES, es, false) && NoLogs(NoncesIn(es))
    ensures BodiesAre(l.nonce, NoncesIn(es))
  {
    assert [] + Blanks(NoncesIn(es)) == Blanks(NoncesIn(es));
    BodiesBlank(l.nonce, NoncesIn(es));
  }

  /** What waits for a call after a forest, read off the trace, waits by the hook calls. */
  lemma LeftoverTold(f: Items, d: Lists)
    requires WellFormed(f, false) && BlankLists(d) == Leftover(f, NO_CHANGES)
    ensures HasCallOnlyChanges(d) <==> !(StoragesIn(Trailing(f, [])) == [] && LogsIn(Trailing(f, [])) == [])
  {
    hide Trailing, BalancesIn, NoncesIn, CodesIn;
    NoLeaves();
    NothingWaits();
    TrailingWaits(f, [], NO_CHANGES);
    var es := Trailing(f, []);
    assert BlankChanges(d.storage) == [] + Blanks(StoragesIn(es));
    assert BlankChanges(d.logs) == [] + Blanks(LogsIn(es));
    hide StoragesIn, LogsIn;
  }

  /** A transaction without a call completes exactly when it is dropped or no log and no storage change is reported in
      it. */
  lemma EmptyCompletes(cfg: Config, prague: bool, st: Stream, f: Items, base: nat)
    requires WellFormed(f, false) && st.body == Flatten(f, 0) && CallsIn(f) == 0
    ensures Trace(cfg, prague, st, base).Ok?
       <==> (st.receipt.None? && cfg.dropWithoutReceipt)
            || (StoragesIn(Trailing(f, [])) == [] && LogsIn(Trailing(f, [])) == [])
  {
    hide Trace, BodyTrace, Complete, Trailing, StoragesIn, LogsIn;
    hide Nesting.BuiltLaws, Calls, SettledForest, LogsMatch, Emitted;
    ForestCompletes(cfg, prague, st, f, base);
    SameSize(f);
    BodyLaws(prague, st.reader, f, base);
    NothingBlank();
    LeftoverTold(f, BodyTrace(prague, st.reader, f, base).h.d);
  }

  /** Tracing a forest gives a transaction that says exactly what its hook calls and its receipt told. */
  lemma OutcomeIsTold(cfg: Config, prague: bool, st: Stream, f: Items, base: nat)
    requires WellFormed(f, false) && st.body == Flatten(f, 0)
    ensures var t := Trace(cfg, prague, st, base);
      t.Ok? && t.value.trx.Some? ==> OutcomeTold(cfg, st, f, base, t.value.trx.value)
  {
    hide Trace, BodyTrace, CallsTold, HeaderIs, AuthsTold, PreimagesTold, ReceiptTold, Complete, IsForest, OutcomeTold;
    var t := Trace(cfg, prague, st, base);
    if t.Ok? && t.value.trx.Some? {
      var b := BodyTrace(prague, st.reader, f, base);
      TraceIs(cfg, prague, st, f, base);
      SettlesForest(cfg, prague, st.reader, f, base);
      SameSize(f);
      var trx := ClosedTx(st, base, b);
      CompletedHeader(cfg, trx, b.h.d, b.env.preimages, st.receipt, b.env.ord + 1);
      if CallsIn(f) == 0 {
        EmptyOutcome(cfg, st, f, base, b, t.value.trx.value);
      } else {
        ForestOutcome(cfg, prague, st, f, base, t.value.trx.value);
      }
    }
  }

  /** The calls completed are those of the body, which show no preimages yet. */
  lemma ForestBody(prague: bool, st: Stream, f: Items, base: nat)
    requires WellFormed(f, false) && st.body == Flatten(f, 0)
    ensures var b := BodyTrace(prague, st.reader, f, base);
      NoneShown(b.post) && b.env.preimages == HashedIn(f, 0, 1)
  {
    hide RunWork, BodyTrace;
    var w, b := FirstWork(st, base), BodyTrace(prague, st.reader, f, base);
    BodyRuns(prague, st, f, base);
    RunShowsNothing(TxCtx(prague), w, base + 1, st.body);
    ClosedCalls(w, b);
    BodyHashes(prague, st.reader, f, base);
  }

  lemma ClosedCalls(w: Work, b: Built)
    requires w.trx.Some? && w.trx.value.calls == [] && w.stack == [] && b.h.Outside?
    ensures var w1 := WorkAfter(w, b); w1.trx.Some? && w1.trx.value.calls == b.post
  {
    assert [] + b.post == b.post;
  }

  lemma BodyHashes(prague: bool, reader: bool, f: Items, base: nat)
    requires WellFormed(f, false)
    ensures BodyTrace(prague, reader, f, base).env.preimages == HashedIn(f, 0, 1)
  {
    hide Build;
    BuildHashed(TxCtx(prague), reader, f, 0, Outside(NO_CHANGES), Env(base + 1, 0, 0, []));
    assert [] + HashedIn(f, 0, 1) == HashedIn(f, 0, 1);
  }

  lemma NumberedDistinct(calls: seq<CallRec>)
    requires forall i :: 0 <= i < |calls| ==> calls[i].index == i + 1
    ensures DistinctIndexes(calls)
  {
  }

  lemma FirstCallTold(cfg: Config, prague: bool, reader: bool, f: Items, calls: seq<CallRec>)
    requires CallsIn(f) > 0 && CallsTold(cfg, prague, reader, f, calls)
    ensures var o := ReportsOf(f)[0];
      && (calls[0].statusReverted <==> o.exit.reverted && Gasless(o.exit.err))
      && (calls[0].returnData == if o.frame.typ == 0xf0 || o.frame.typ == 0xf5 then [] else o.exit.output)
      && BodiesAre(calls[0].lists.nonce, NoncesIn(o.before) + NoncesIn(o.own) + NoncesIn(Trailing(f, [])))
  {
    hide Gasless, LooksUp, Executes, Destructs, Reports, LogsAre;
    assert CallTold(cfg, TxCtx(prague), reader, ReportsOf(f)[0], ExtraTold(f, 0), calls[0]);
  }

  /** `t` is the completed transaction of forest `f`. */
  ghost predicate TracedTo(cfg: Config, prague: bool, st: Stream, f: Items, base: nat, t: TxTrace) {
    && WellFormed(f, false) && st.body == Flatten(f, 0) && CallsIn(f) > 0
    && var r := Trace(cfg, prague, st, base); r.Ok? && r.value.trx == Some(t)
  }

  lemma TracedCompletes(cfg: Config, prague: bool, st: Stream, f: Items, base: nat, t: TxTrace)
    requires TracedTo(cfg, prague, st, f, base, t)
    ensures var b := BodyTrace(prague, st.reader, f, base);
      && b.h.Outside? && |b.post| == CallsIn(f) && CallsTold(cfg, prague, st.reader, f, t.calls)
      && Complete(cfg, ClosedTx(st, base, b), b.h.d, b.env.preimages, st.receipt, b.env.ord + 1) == Ok(t)
  {
    hide Trace, BodyTrace, CallsTold, Complete;
    TraceIs(cfg, prague, st, f, base);
    SettlesForest(cfg, prague, st.reader, f, base);
    SameSize(f);
    TransactionIsTold(cfg, prague, st, f, base);
  }

  lemma ForestAuths(cfg: Config, prague: bool, st: Stream, f: Items, base: nat, t: TxTrace)
    requires TracedTo(cfg, prague, st, f, base, t)
    ensures var first := ReportsOf(f)[0];
      AuthsTold(st.signers, NoncesIn(first.before) + NoncesIn(first.own), t.auths)
  {
    hide BodyTrace, CallsTold, AuthsTold, Complete, Reports, AuthsOf, Trailing, BodiesAre, Gasless, Trace;
    TracedCompletes(cfg, prague, st, f, base, t);
    FirstCallTold(cfg, prague, st.reader, f, t.calls);
    TrailingNonces(prague, st, f, base);
    var first, b := ReportsOf(f)[0], BodyTrace(prague, st.reader, f, base);
    CompletedAuths(cfg, ClosedTx(st, base, b), st.signers, b.h.d, b.env.preimages, st.receipt, b.env.ord + 1,
                   NoncesIn(first.before) + NoncesIn(first.own));
  }

  lemma ForestPreimages(cfg: Config, prague: bool, st: Stream, f: Items, base: nat, t: TxTrace)
    requires TracedTo(cfg, prague, st, f, base, t)
    ensures PreimagesTold(t.calls, HashedIn(f, 0, 1))
  {
    hide BodyTrace, CallsTold, PreimagesTold, Complete, Trace, AuthsOf;
    hide Trees.WellNested, Renders, ChangesInOrder, Trees.SomeFailed, Calls;
    TracedCompletes(cfg, prague, st, f, base, t);
    var b := BodyTrace(prague, st.reader, f, base);
    ForestRoundTrip(cfg, prague, st, f, base);
    NumberedDistinct(t.calls);
    ForestBody(prague, st, f, base);
    CompletedPreimages(cfg, ClosedTx(st, base, b), b.h.d, b.env.preimages, st.receipt, b.env.ord + 1);
  }

  lemma ForestOutcome(cfg: Config, prague: bool, st: Stream, f: Items, base: nat, t: TxTrace)
    requires TracedTo(cfg, prague, st, f, base, t)
    ensures OutcomeTold(cfg, st, f, base, t)
  {
    hide Trace, BodyTrace, CallsTold, AuthsTold, PreimagesTold, ReceiptTold, Complete, StatusIs, Reports, AuthsOf;
    hide Trailing, Gasless, BodiesAre;
    TracedCompletes(cfg, prague, st, f, base, t);
    var b := BodyTrace(prague, st.reader, f, base);
    CompletedHeader(cfg, ClosedTx(st, base, b), b.h.d, b.env.preimages, st.receipt, b.env.ord + 1);
    FirstCallTold(cfg, prague, st.reader, f, t.calls);
    ForestAuths(cfg, prague, st, f, base, t);
    ForestPreimages(cfg, prague, st, f, base, t);
    ReceiptIsTold(cfg, prague, st, base);
  }

  lemma EmptyOutcome(cfg: Config, st: Stream, f: Items, base: nat, b: Built, t: TxTrace)
    requires CallsIn(f) == 0 && t == ClosedTx(st, base, b).(endOrdinal := t.endOrdinal)
    ensures OutcomeTold(cfg, st, f, base, t)
  {
  }
}
