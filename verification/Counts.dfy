/** How often an ordinal is recorded. Every event records at most the next ordinal, and moving records
    around (closing calls, completing transactions, system calls, commits) neither loses nor duplicates one. */
module Counts {
  import opened Bytes
  import opened Wrappers
  import opened Model
  import opened Sorting
  import opened Completion
  import opened Machine
  import opened Relabel
  import opened Ranges
  import opened World
  import KeccakFilter

  function One(b: bool): nat { if b then 1 else 0 }

  function CountChanges(s: seq<Change>, o: nat): nat {
    if |s| == 0 then 0 else CountChanges(s[..|s| - 1], o) + One(s[|s| - 1].ordinal == o)
  }

  function CountLists(l: Lists, o: nat): nat {
    CountChanges(l.balance, o) + CountChanges(l.nonce, o) + CountChanges(l.code, o)
    + CountChanges(l.storage, o) + CountChanges(l.logs, o)
  }

  function CountCall(c: CallRec, o: nat): nat {
    One(c.beginOrdinal == o) + One(c.endOrdinal == o) + CountLists(c.lists, o)
  }

  function CountCalls(s: seq<CallRec>, o: nat): nat {
    if |s| == 0 then 0 else CountCalls(s[..|s| - 1], o) + CountCall(s[|s| - 1], o)
  }

  function CountTx(t: TxTrace, o: nat): nat {
    One(t.beginOrdinal == o) + One(t.endOrdinal == o) + CountCalls(t.calls, o)
  }

  function CountTxs(s: seq<TxTrace>, o: nat): nat {
    if |s| == 0 then 0 else CountTxs(s[..|s| - 1], o) + CountTx(s[|s| - 1], o)
  }

  function CountWork(w: Work, o: nat): nat {
    (if w.trx.Some? then CountTx(w.trx.value, o) else 0) + CountCalls(w.stack, o) + CountLists(w.deferred, o)
  }

  function CountBlock(b: Block, o: nat): nat {
    CountTxs(b.txs, o) + CountCalls(b.systemCalls, o)
    + CountChanges(b.balanceChanges, o) + CountChanges(b.codeChanges, o)
  }

  function CountSnapshot(s: Snapshot, o: nat): nat {
    CountTxs(s.txs, o) + CountCalls(s.systemCalls, o)
    + CountChanges(s.balanceChanges, o) + CountChanges(s.codeChanges, o)
  }

  /** How often ordinal `o` is recorded anywhere in the tracer, receipt-log copies aside. */
  function CountState(s: State, o: nat): nat {
    (if s.block.Some? then CountBlock(s.block.value, o) else 0) + CountWork(s.work, o)
    + if s.saved.Some? then CountWork(s.saved.value, o) else 0
  }

  // ---------------------------------------------------------------- lists

  lemma CountPush(s: seq<Change>, c: Change, o: nat)
    ensures CountChanges(s + [c], o) == CountChanges(s, o) + One(c.ordinal == o)
  {
    assert (s + [c])[..|s|] == s;
  }

  lemma {:induction false} CountJoin(a: seq<Change>, b: seq<Change>, o: nat)
    ensures CountChanges(a + b, o) == CountChanges(a, o) + CountChanges(b, o)
    decreases |b|
  {
    if |b| == 0 {
      assert a + b == a;
    } else {
      assert (a + b)[..|a + b| - 1] == a + b[..|b| - 1];
      CountJoin(a, b[..|b| - 1], o);
    }
  }

  lemma CountAddTo(l: Lists, c: Change, o: nat)
    ensures CountLists(AddTo(l, c), o) == CountLists(l, o) + One(c.ordinal == o)
  {
    hide CountChanges;
    CountPush(l.balance, c, o);
    CountPush(l.nonce, c, o);
    CountPush(l.code, c, o);
    CountPush(l.storage, c, o);
    CountPush(l.logs, c, o);
  }

  lemma CountConcat(a: Lists, b: Lists, o: nat)
    ensures CountLists(Concat(a, b), o) == CountLists(a, o) + CountLists(b, o)
  {
    hide CountChanges;
    CountJoin(a.balance, b.balance, o);
    CountJoin(a.nonce, b.nonce, o);
    CountJoin(a.code, b.code, o);
    CountJoin(a.storage, b.storage, o);
    CountJoin(a.logs, b.logs, o);
  }

  lemma CountNothing(o: nat)
    ensures CountLists(NO_CHANGES, o) == 0
  {
  }

  lemma CountPushCall(s: seq<CallRec>, c: CallRec, o: nat)
    ensures CountCalls(s + [c], o) == CountCalls(s, o) + CountCall(c, o)
  {
    assert (s + [c])[..|s|] == s;
  }

  lemma CountPop(s: seq<CallRec>, o: nat)
    requires |s| > 0
    ensures CountCalls(s, o) == CountCalls(s[..|s| - 1], o) + CountCall(s[|s| - 1], o)
  {
  }

  lemma {:induction false} CountJoinCalls(a: seq<CallRec>, b: seq<CallRec>, o: nat)
    ensures CountCalls(a + b, o) == CountCalls(a, o) + CountCalls(b, o)
    decreases |b|
  {
    hide CountCall;
    if |b| == 0 {
      assert a + b == a;
    } else {
      assert (a + b)[..|a + b| - 1] == a + b[..|b| - 1];
      CountJoinCalls(a, b[..|b| - 1], o);
    }
  }

  lemma {:induction false} CountJoinTxs(a: seq<TxTrace>, b: seq<TxTrace>, o: nat)
    ensures CountTxs(a + b, o) == CountTxs(a, o) + CountTxs(b, o)
    decreases |b|
  {
    hide CountTx;
    if |b| == 0 {
      assert a + b == a;
    } else {
      assert (a + b)[..|a + b| - 1] == a + b[..|b| - 1];
      CountJoinTxs(a, b[..|b| - 1], o);
    }
  }

  lemma {:induction false} CountPointwise(a: seq<CallRec>, b: seq<CallRec>, o: nat)
    requires |a| == |b| && forall i :: 0 <= i < |a| ==> CountCall(a[i], o) == CountCall(b[i], o)
    ensures CountCalls(a, o) == CountCalls(b, o)
    decreases |a|
  {
    hide CountCall;
    if |a| > 0 {
      CountPointwise(a[..|a| - 1], b[..|b| - 1], o);
    }
  }

  lemma {:induction false} CountInsert(c: CallRec, s: seq<CallRec>, o: nat)
    ensures CountCalls(Insert(CallIndex, c, s), o) == CountCalls(s, o) + CountCall(c, o)
    decreases |s|
  {
    hide CountCall;
    if |s| == 0 || CallIndex(s[|s| - 1]) <= CallIndex(c) {
      CountPushCall(s, c, o);
    } else {
      var front, last := s[..|s| - 1], s[|s| - 1];
      CountInsert(c, front, o);
      CountPushCall(Insert(CallIndex, c, front), last, o);
    }
  }

  lemma {:induction false} CountSort(s: seq<CallRec>, o: nat)
    ensures CountCalls(SortCalls(s), o) == CountCalls(s, o)
    decreases |s|
  {
    hide CountCall, Insert;
    if |s| > 0 {
      CountSort(s[..|s| - 1], o);
      CountInsert(s[|s| - 1], SortCalls(s[..|s| - 1]), o);
    }
  }

  lemma {:induction false} CountReplace(s: seq<CallRec>, k: nat, c: CallRec, o: nat)
    requires k < |s|
    ensures CountCalls(s[k := c], o) == CountCalls(s, o) - CountCall(s[k], o) + CountCall(c, o)
    decreases |s|
  {
    hide CountCall;
    if k == |s| - 1 {
      assert s[k := c][..k] == s[..k];
    } else {
      assert s[k := c][..|s| - 1] == s[..|s| - 1][k := c];
      CountReplace(s[..|s| - 1], k, c, o);
    }
  }

  // ---------------------------------------------------------------- one event

  lemma LeafCounts(ctx: Ctx, w: Work, ord: nat, e: TxEvent, o: nat)
    requires IsLeaf(e) && StepLeaf(ctx, w, ord, e).Ok?
    ensures var r := StepLeaf(ctx, w, ord, e).value; CountWork(r.0, o) == CountWork(w, o) + One(r.1 == ord + 1 == o)
    ensures var r := StepLeaf(ctx, w, ord, e).value; ord <= r.1 <= ord + 1
  {
    hide CountLists, AddTo, IsNoOp, IgnoredAfterSuicide, LeafOnCall, LeafOutside, CountCalls;
    var top := Top(w.stack);
    if top.Some? {
      LeafOnCallCounts(top.value, e, ord, w.logIndex, o);
      CountPop(w.stack, o);
      CountPushCall(w.stack[..|w.stack| - 1], LeafOnCall(top.value, e, ord, w.logIndex), o);
    } else {
      LeafOutsideCounts(w.deferred, e, ord, w.logIndex, o);
    }
  }

  lemma LeafOnCallCounts(c: CallRec, e: TxEvent, ord: nat, logIndex: nat, o: nat)
    ensures CountCall(LeafOnCall(c, e, ord, logIndex), o) == CountCall(c, o) + One(Records(e, Some(c)) && ord + 1 == o)
  {
    hide CountLists, AddTo, IsNoOp, IgnoredAfterSuicide;
    if Records(e, Some(c)) {
      CountAddTo(c.lists, RecordOf(e, ord + 1, logIndex), o);
    }
  }

  lemma LeafOutsideCounts(d: Lists, e: TxEvent, ord: nat, logIndex: nat, o: nat)
    ensures CountLists(LeafOutside(d, e, ord, logIndex), o) == CountLists(d, o) + One(Records(e, None) && ord + 1 == o)
  {
    hide CountLists, AddTo, IsNoOp, IgnoredAfterSuicide;
    if Records(e, None) {
      CountAddTo(d, RecordOf(e, ord + 1, logIndex), o);
    }
  }

  lemma EnterCounts(ctx: Ctx, w: Work, ord: nat, depth: int, f: Frame, o: nat)
    requires StepEnter(ctx, w, ord, depth, f).Ok? && o >= 1 && AllOpen(w.stack)
    ensures var r := StepEnter(ctx, w, ord, depth, f).value;
      && CountWork(r.0, o) == CountWork(w, o) + One(r.1 == ord + 1 == o)
      && ord <= r.1 <= ord + 1 && AllOpen(r.0.stack)
  {
    hide CountLists, DelegationOf, CountCalls, CountTx;
    if f.typ != SELFDESTRUCT {
      CountNothing(o);
      var c := StepEnter(ctx, w, ord, depth, f).value.0.stack[|w.stack|];
      CountPushCall(w.stack, c, o);
    }
  }

  lemma LeaveCounts(ctx: Ctx, w: Work, ord: nat, x: Exit, o: nat)
    requires StepLeave(ctx, w, ord, x).Ok? && o >= 1 && AllOpen(w.stack)
    ensures var r := StepLeave(ctx, w, ord, x).value;
      && CountWork(r.0, o) == CountWork(w, o) + One(r.1 == ord + 1 == o)
      && ord <= r.1 <= ord + 1 && AllOpen(r.0.stack)
  {
    hide CountLists, CountCalls;
    if !w.suicided {
      CountPop(w.stack, o);
      CountPushCall(w.trx.value.calls, Closed(w.stack[|w.stack| - 1], x, ord + 1), o);
    }
  }

  /** Conservation at one event: the next ordinal is recorded once if it is used, and nothing else changes. */
  lemma EventCounts(ctx: Ctx, w: Work, ord: nat, e: TxEvent, o: nat)
    requires StepWork(ctx, w, ord, e).Ok? && o >= 1 && AllOpen(w.stack)
    ensures var r := StepWork(ctx, w, ord, e).value;
      && CountWork(r.0, o) == CountWork(w, o) + One(r.1 == ord + 1 == o)
      && ord <= r.1 <= ord + 1 && AllOpen(r.0.stack)
  {
    hide CountWork, StepLeaf, StepEnter, StepLeave;
    match e
    case Enter(depth, f) => EnterCounts(ctx, w, ord, depth, f, o);
    case Leave(x) => LeaveCounts(ctx, w, ord, x, o);
    case _ =>
      LeafCounts(ctx, w, ord, e, o);
      LeafKeepsOpen(ctx, w, ord, e);
  }

  /** Open calls have no end ordinal yet. */
  predicate AllOpen(s: seq<CallRec>) { forall i :: 0 <= i < |s| ==> s[i].endOrdinal == 0 }

  lemma LeafKeepsOpen(ctx: Ctx, w: Work, ord: nat, e: TxEvent)
    requires IsLeaf(e) && StepLeaf(ctx, w, ord, e).Ok? && AllOpen(w.stack)
    ensures AllOpen(StepLeaf(ctx, w, ord, e).value.0.stack)
  {
  }

  // ---------------------------------------------------------------- completion

  lemma CountSame(c: CallRec, d: CallRec, o: nat)
    requires c.beginOrdinal == d.beginOrdinal && c.endOrdinal == d.endOrdinal && c.lists == d.lists
    ensures CountCall(c, o) == CountCall(d, o)
  {
  }

  lemma {:induction false} CountCleared(cfg: Config, s: seq<Change>, o: nat)
    ensures CountChanges(MapSeq(ClearLog(cfg), s), o) == CountChanges(s, o)
    decreases |s|
  {
    if |s| > 0 {
      MapTake(ClearLog(cfg), s, |s| - 1);
      CountCleared(cfg, s[..|s| - 1], o);
    }
  }

  lemma AttachCounts(calls: seq<CallRec>, recorded: seq<Recorded>, o: nat)
    ensures CountCalls(Attach(calls, recorded), o) == CountCalls(calls, o)
  {
    hide KeccakFilter.Kept, Explained, LastWithIndex, CountCall;
    forall i | 0 <= i < |calls| ensures CountCall(Attach(calls, recorded)[i], o) == CountCall(calls[i], o) {
      CountSame(Attach(calls, recorded)[i], calls[i], o);
    }
    CountPointwise(Attach(calls, recorded), calls, o);
  }

  lemma ArrangedCounts(calls: seq<CallRec>, leftover: Lists, recorded: seq<Recorded>, o: nat)
    requires |calls| > 0
    ensures CountCalls(ArrangedCalls(calls, leftover, recorded), o) == CountCalls(calls, o) + CountLists(leftover, o)
  {
    hide Attach, CountLists, Concat;
    SortOrders(CallIndex, calls);
    CountSort(calls, o);
    var sorted := SortCalls(calls);
    var root := sorted[0].(lists := Concat(sorted[0].lists, leftover));
    CountConcat(sorted[0].lists, leftover, o);
    CountReplace(sorted, 0, root, o);
    AttachCounts(sorted[0 := root], recorded, o);
  }

  lemma SettledCounts(cfg: Config, calls: seq<CallRec>, o: nat)
    requires SettledCalls(cfg, calls).Ok?
    ensures CountCalls(SettledCalls(cfg, calls).value, o) == CountCalls(calls, o)
  {
    hide CountCall;
    PropagateMarks(calls, []);
    var marked := Propagate(calls, []).value;
    forall i | 0 <= i < |calls| ensures CountCall(ClearCall(cfg)(marked[i]), o) == CountCall(calls[i], o) {
      assert marked[i] == calls[i].(stateReverted := marked[i].stateReverted);
      ClearedCounts(cfg, marked[i], o);
      CountSame(marked[i], calls[i], o);
    }
    CountPointwise(SettledCalls(cfg, calls).value, calls, o);
  }

  lemma ClearedCounts(cfg: Config, c: CallRec, o: nat)
    ensures CountCall(ClearCall(cfg)(c), o) == CountCall(c, o)
  {
    CountCleared(cfg, c.lists.logs, o);
  }

  /** Completion: the end ordinal is recorded, and the leftover moves to the root call; it is lost when
      there is none. */
  lemma CompleteCounts(cfg: Config, trx: TxTrace, leftover: Lists, recorded: seq<Recorded>, receipt: Option<Receipt>,
                       end: nat, o: nat)
    requires trx.endOrdinal == 0 && o >= 1 && Complete(cfg, trx, leftover, recorded, receipt, end).Ok?
    ensures CountTx(Complete(cfg, trx, leftover, recorded, receipt, end).value, o)
         == CountTx(trx, o) + One(end == o) + if |trx.calls| == 0 then 0 else CountLists(leftover, o)
  {
    hide ArrangedCalls, CheckedAuths, SettledCalls, PairLogs, ReceiptBefore, CountLists, CountCalls;
    if |trx.calls| > 0 {
      ArrangedCounts(trx.calls, leftover, recorded, o);
      SettledCounts(cfg, ArrangedCalls(trx.calls, leftover, recorded), o);
    }
  }
}
