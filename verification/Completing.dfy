/** The end of a transaction, in place (tracer.go:1130-1238): its calls sorted, completed and settled, its
    receipt paired. */
module Completing {
  import opened Bytes
  import opened Wrappers
  import opened Model
  import opened Sorting
  import opened Completion
  import opened Ranges
  import opened Objects
  import opened CallLoops
  import opened Preimages

  lemma StaysSeparate(a: seq<Call>, b: seq<Call>)
    requires Separate(a) && multiset(a) == multiset(b)
    ensures Separate(b) && |a| == |b| && forall c :: c in b <==> c in a
  {
    assert |multiset(a)| == |a| && |multiset(b)| == |b|;
    forall c ensures c in b <==> c in a {
      assert c in a <==> c in multiset(a);
      assert c in b <==> c in multiset(b);
    }
    forall c: Call ensures multiset(a)[c] <= 1 {
      OnceIn(a, c);
    }
    forall i, j | 0 <= i < j < |b| ensures b[i] != b[j] {
      if b[i] == b[j] {
        TwiceIn(b, i, j);
      }
    }
  }

  lemma TwiceIn(b: seq<Call>, i: nat, j: nat)
    requires i < j < |b| && b[i] == b[j]
    ensures multiset(b)[b[i]] >= 2
  {
    assert b == b[..i] + [b[i]] + b[i + 1..j] + [b[j]] + b[j + 1..];
  }

  lemma {:induction false} OnceIn(a: seq<Call>, c: Call)
    requires Separate(a)
    ensures multiset(a)[c] <= 1 && (c !in a ==> multiset(a)[c] == 0)
    decreases |a|
  {
    if |a| > 0 {
      var n := |a| - 1;
      assert a == a[..n] + [a[n]];
      OnceIn(a[..n], c);
    }
  }

  // ---------------------------------------------------------------- the stages

  /** The calls of `b` are those of `a`, each once. */
  predicate SameCalls(a: seq<Call>, b: seq<Call>) {
    |a| == |b| && Separate(b) && forall c :: c in b ==> c in a
  }

  method SortTransactionCalls(trx: Transaction)
    requires Separate(trx.calls)
    modifies trx
    ensures SameCalls(old(trx.calls), trx.calls)
    ensures trx.View() == old(trx.View()).(calls := SortCalls(old(trx.View()).calls))
  {
    hide Call.View, SortCalls, Separate;
    var sorted := SortByIndex(trx.calls);
    StaysSeparate(trx.calls, sorted);
    trx.calls := sorted;
  }

  /** Must come before the leftover is added to the root call. */
  method DiscardUncommitted(trx: Transaction)
    requires |trx.calls| > 0
    modifies trx
    ensures trx.calls == old(trx.calls)
    ensures var t := old(trx.View()); trx.View() == t.(auths := Discard(t.auths, t.calls[0].lists.nonce, {}))
  {
    hide Call.View;
    Fields(trx.calls[0]);
    trx.auths := DiscardUncommittedSetCodeAuthorizations(trx.auths, trx.calls[0].nonceChanges);
  }

  /** Sorts the calls, discards uncommitted authorizations, moves what is still deferred to the root call
      and attaches the preimages. */
  method ArrangeCalls(trx: Transaction, d: DeferredCallState, recorded: seq<Recorded>)
    requires Separate(trx.calls) && |trx.calls| > 0
    modifies trx, trx.calls, d
    ensures SameCalls(old(trx.calls), trx.calls) && d.View() == NO_CHANGES
    ensures var t := old(trx.View());
      trx.View() == t.(auths := CheckedAuths(t), calls := ArrangedCalls(t.calls, old(d.View()), recorded))
  {
    hide Call.View, Attach, SortCalls, WithLeftover, Separate, Concat;
    SortOrders(CallIndex, Views(trx.calls));
    SortTransactionCalls(trx);
    DiscardUncommitted(trx);
    ghost var before := trx.View();
    var calls := trx.calls;
    forall i | 0 <= i < |calls| ensures calls[i] in old(trx.calls) {
    }
    FillCalls(calls, d, recorded);
    assert trx.View() == before.(calls := Views(trx.calls));
    ArrangedIs(old(trx.View().calls), old(d.View()), recorded);
  }

  function WithLeftover(sorted: seq<CallRec>, leftover: Lists): (r: seq<CallRec>)
    requires |sorted| > 0
    ensures |r| == |sorted|
  {
    sorted[0 := sorted[0].(lists := Concat(sorted[0].lists, leftover))]
  }

  lemma ArrangedIs(calls: seq<CallRec>, leftover: Lists, recorded: seq<Recorded>)
    requires |calls| > 0
    ensures |SortCalls(calls)| > 0
            && ArrangedCalls(calls, leftover, recorded) == Attach(WithLeftover(SortCalls(calls), leftover), recorded)
  {
    hide Attach;
    SortOrders(CallIndex, calls);
  }

  /** The leftover moved to the first call, and the preimages attached. */
  method FillCalls(calls: seq<Call>, d: DeferredCallState, recorded: seq<Recorded>)
    requires Separate(calls) && |calls| > 0
    modifies calls, d
    ensures Views(calls) == Attach(WithLeftover(old(Views(calls)), old(d.View())), recorded) && d.View() == NO_CHANGES
  {
    hide Call.View, Attach, Separate, WithLeftover;
    assert calls[0] in calls;
    MoveLeftover(calls, d);
    AttachStorageSlotPreimages(calls, recorded);
  }

  method MoveLeftover(calls: seq<Call>, d: DeferredCallState)
    requires Separate(calls) && |calls| > 0
    modifies d, calls[0]
    ensures d.View() == NO_CHANGES && Views(calls) == WithLeftover(old(Views(calls)), old(d.View()))
  {
    hide Call.View, Concat;
    ghost var before := Views(calls);
    Fields(calls[0]);
    if !d.IsEmpty() {
      var _ := d.MaybePopulateCallAndReset(FromRoot, calls[0]);
    } else {
      ConcatEmpty(before[0].lists);
    }
    OneChanged(calls, before, 0);
  }

  method NewReceiptFromData(receipt: Receipt) returns (r: TxReceipt)
    ensures r == NewReceipt(receipt)
  {
    var logs: seq<ReceiptLog> := [];
    for i := 0 to |receipt.logs|
      invariant |logs| == i && forall k :: 0 <= k < i ==>
        logs[k] == ReceiptLog(receipt.logs[k].0, receipt.logs[k].1, 0, 0)
    {
      logs := logs + [ReceiptLog(receipt.logs[i].0, receipt.logs[i].1, 0, 0)];
    }
    r := TxReceipt(logs);
  }

  /** What the receipt and the root call say of the transaction. */
  function WithReceipt(t: TxTrace, receipt: Option<Receipt>): TxTrace
    requires |t.calls| > 0
  {
    t.(index := if receipt.Some? then receipt.value.index else t.index,
       gasUsed := if receipt.Some? then receipt.value.gasUsed else t.gasUsed,
       receipt := ReceiptBefore(t, receipt),
       status := StatusOf(t.status, receipt, t.calls[0].statusReverted),
       returnData := t.calls[0].returnData)
  }

  method ApplyReceipt(trx: Transaction, receipt: Option<Receipt>)
    modifies trx
    ensures trx.calls == old(trx.calls)
    ensures var t := old(trx.View());
      trx.View() == t.(index := if receipt.Some? then receipt.value.index else t.index,
                       gasUsed := if receipt.Some? then receipt.value.gasUsed else t.gasUsed,
                       receipt := ReceiptBefore(t, receipt), status := StatusOf(t.status, receipt, false))
  {
    hide Call.View, NewReceipt;
    if receipt.Some? {
      trx.index := receipt.value.index;
      trx.gasUsed := receipt.value.gasUsed;
      var r := NewReceiptFromData(receipt.value);
      trx.receipt := Some(r);
      trx.status := if receipt.value.status == 1 then Succeeded else TxStatus.Failed;
    }
  }

  method Describe(trx: Transaction, receipt: Option<Receipt>)
    requires |trx.calls| > 0
    modifies trx
    ensures trx.calls == old(trx.calls) && trx.View() == WithReceipt(old(trx.View()), receipt)
  {
    hide Call.View, ReceiptBefore;
    ApplyReceipt(trx, receipt);
    var rootCall := trx.calls[0];
    Fields(rootCall);
    if rootCall.statusReverted {
      trx.status := TxStatus.Reverted;
    }
    trx.returnData := rootCall.returnData;
  }

  /** Reverts propagated and block indexes of reverted logs removed. */
  method SettleCalls(cfg: Config, calls: seq<Call>) returns (r: Result<()>)
    requires Separate(calls)
    modifies calls
    ensures var s := SettledCalls(cfg, old(Views(calls))); r.Ok? == s.Ok? && (r.Ok? ==> Views(calls) == s.value)
  {
    hide Call.View, Propagate, ClearReverted, Separate;
    r := PopulateStateReverted(calls);
    if r.Ok? {
      RemoveLogBlockIndexOnStateRevertedCalls(cfg, calls);
    }
  }

  method PairReceipt(cfg: Config, trx: Transaction) returns (r: Result<()>)
    modifies trx
    ensures trx.calls == old(trx.calls)
    ensures var t := old(trx.View()); var p := PairLogs(cfg, t.calls, t.receipt);
      r.Ok? == p.Ok? && (r.Ok? ==> trx.View() == t.(receipt := p.value))
  {
    hide Call.View, Surviving, AssignReceipt, Sort;
    var logs := if trx.receipt.Some? then trx.receipt.value.logs else [];
    var paired := AssignOrdinalAndIndexToReceiptLogs(cfg, trx.calls, logs);
    if paired.Panic? {
      return Panic;
    }
    if trx.receipt.Some? {
      trx.receipt := Some(TxReceipt(paired.value));
    }
    return Ok(());
  }

  // ---------------------------------------------------------------- the whole

  /** What follows the arrangement of the calls. */
  function Finished(cfg: Config, t: TxTrace, receipt: Option<Receipt>, endOrdinal: nat): Result<TxTrace>
    requires |t.calls| > 0
  {
    var d := WithReceipt(t, receipt);
    var calls :- SettledCalls(cfg, d.calls);
    var paired :- PairLogs(cfg, calls, d.receipt);
    Ok(d.(calls := calls, receipt := paired, endOrdinal := endOrdinal))
  }

  lemma SettledRoot(cfg: Config, calls: seq<CallRec>)
    requires |calls| > 0
    ensures var s := SettledCalls(cfg, calls);
      s.Ok? ==> s.value[0].statusReverted == calls[0].statusReverted && s.value[0].returnData == calls[0].returnData
  {
    assert calls[..0] == [];
    PropagateMarks(calls, []);
    hide Propagate;
  }

  lemma FinishedIsComplete(cfg: Config, t: TxTrace, leftover: Lists, recorded: seq<Recorded>, receipt: Option<Receipt>,
                           endOrdinal: nat)
    requires |t.calls| > 0
    ensures Complete(cfg, t, leftover, recorded, receipt, endOrdinal)
         == Finished(cfg, t.(auths := CheckedAuths(t), calls := ArrangedCalls(t.calls, leftover, recorded)),
                     receipt, endOrdinal)
  {
    hide SettledCalls, PairLogs, ArrangedCalls, CheckedAuths;
    SettledRoot(cfg, ArrangedCalls(t.calls, leftover, recorded));
  }

  method FinishTransaction(cfg: Config, trx: Transaction, receipt: Option<Receipt>, ordinal: Ordinal)
      returns (r: Result<()>)
    requires Separate(trx.calls) && |trx.calls| > 0
    modifies trx, trx.calls, ordinal
    ensures trx.calls == old(trx.calls)
    ensures var f := Finished(cfg, old(trx.View()), receipt, old(ordinal.value) + 1);
      r.Ok? == f.Ok? && (r.Ok? ==> trx.View() == f.value && ordinal.value == old(ordinal.value) + 1)
  {
    hide Call.View, WithReceipt, SettledCalls, PairLogs;
    Describe(trx, receipt);
    r := SettleCalls(cfg, trx.calls);
    if r.Panic? {
      return;
    }
    r := PairReceipt(cfg, trx);
    if r.Panic? {
      return;
    }
    trx.endOrdinal := ordinal.Next();
  }

  /** A transaction with a call. */
  method CompleteCalls(cfg: Config, trx: Transaction, d: DeferredCallState, recorded: seq<Recorded>,
                       receipt: Option<Receipt>, ordinal: Ordinal) returns (r: Result<()>)
    requires Separate(trx.calls) && |trx.calls| > 0
    modifies trx, trx.calls, d, ordinal
    ensures r.Ok? ==> SameCalls(old(trx.calls), trx.calls) && d.View() == NO_CHANGES
    ensures var c := Complete(cfg, old(trx.View()), old(d.View()), recorded, receipt, old(ordinal.value) + 1);
      r.Ok? == c.Ok? && (r.Ok? ==> trx.View() == c.value && ordinal.value == old(ordinal.value) + 1)
  {
    hide Call.View, Finished, ArrangedCalls, CheckedAuths, SettledCalls, PairLogs, Complete;
    FinishedIsComplete(cfg, trx.View(), d.View(), recorded, receipt, ordinal.value + 1);
    ArrangeCalls(trx, d, recorded);
    forall i | 0 <= i < |trx.calls| ensures trx.calls[i] in old(trx.calls) {
    }
    r := FinishTransaction(cfg, trx, receipt, ordinal);
  }

  /** Completes a transaction in place. The deferred changes are used up, unless there is no call. */
  method CompleteTransaction(cfg: Config, trx: Transaction, d: DeferredCallState, recorded: seq<Recorded>,
                             receipt: Option<Receipt>, ordinal: Ordinal) returns (r: Result<()>)
    requires Separate(trx.calls)
    modifies trx, trx.calls, d, ordinal
    ensures r.Ok? ==> SameCalls(old(trx.calls), trx.calls)
    ensures var c := Complete(cfg, old(trx.View()), old(d.View()), recorded, receipt, old(ordinal.value) + 1);
      r.Ok? == c.Ok? && (r.Ok? ==> trx.View() == c.value && ordinal.value == old(ordinal.value) + 1)
    ensures r.Ok? ==> d.View() == if |old(trx.calls)| == 0 then old(d.View()) else NO_CHANGES
  {
    hide Call.View, ArrangedCalls, CheckedAuths, SettledCalls, PairLogs;
    if |trx.calls| == 0 {
      if d.HasCallOnlyChanges() {
        return Panic;
      }
      trx.endOrdinal := ordinal.Next();
      return Ok(());
    }
    r := CompleteCalls(cfg, trx, d, recorded, receipt, ordinal);
  }
}
