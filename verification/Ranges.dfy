/** Ordinals stay within 1..counter: what every event and completion keeps. */
module Ranges {
  import opened Bytes
  import opened Wrappers
  import opened Model
  import opened Sorting
  import opened Completion
  import opened Machine
  import opened Relabel
  import KeccakFilter

  ghost predicate ChangesIn(s: seq<Change>, hi: nat) {
    forall i :: 0 <= i < |s| ==> 1 <= s[i].ordinal <= hi
  }

  ghost predicate ListsIn(l: Lists, hi: nat) {
    && ChangesIn(l.balance, hi) && ChangesIn(l.nonce, hi) && ChangesIn(l.code, hi)
    && ChangesIn(l.storage, hi) && ChangesIn(l.logs, hi)
  }

  ghost predicate OpenIn(c: CallRec, hi: nat) {
    1 <= c.beginOrdinal <= hi && c.endOrdinal == 0 && ListsIn(c.lists, hi)
  }

  ghost predicate ClosedIn(c: CallRec, hi: nat) {
    1 <= c.beginOrdinal <= hi && 1 <= c.endOrdinal <= hi && ListsIn(c.lists, hi)
  }

  ghost predicate AllClosedIn(s: seq<CallRec>, hi: nat) {
    forall i :: 0 <= i < |s| ==> ClosedIn(s[i], hi)
  }

  ghost predicate AllOpenIn(s: seq<CallRec>, hi: nat) {
    forall i :: 0 <= i < |s| ==> OpenIn(s[i], hi)
  }

  /** A transaction under way; a system call's stand-in transaction has no begin ordinal. */
  ghost predicate UnderWay(t: TxTrace, hi: nat) {
    t.beginOrdinal <= hi && t.endOrdinal == 0 && t.receipt.None? && AllClosedIn(t.calls, hi)
  }

  ghost predicate WorkIn(w: Work, hi: nat) {
    && (w.trx.Some? ==> UnderWay(w.trx.value, hi))
    && AllOpenIn(w.stack, hi)
    && ListsIn(w.deferred, hi)
  }

  lemma WorkInGrows(w: Work, lo: nat, hi: nat)
    requires WorkIn(w, lo) && lo <= hi
    ensures WorkIn(w, hi)
  {
  }

  lemma AddToIn(l: Lists, c: Change, hi: nat)
    requires ListsIn(l, hi) && 1 <= c.ordinal <= hi
    ensures ListsIn(AddTo(l, c), hi)
  {
  }

  lemma LeafIn(ctx: Ctx, w: Work, ord: nat, e: TxEvent)
    requires WorkIn(w, ord) && IsLeaf(e) && StepLeaf(ctx, w, ord, e).Ok?
    ensures var r := StepLeaf(ctx, w, ord, e).value; ord <= r.1 && WorkIn(r.0, r.1)
  {
    hide AddTo, RecordOf, ListsIn, Records;
    WorkInGrows(w, ord, ord + 1);
    var top := Top(w.stack);
    var lists := if top.Some? then top.value.lists else w.deferred;
    if Records(e, top) {
      RecordedKinds(e, top);
      RecordOrdinal(e, ord + 1, w.logIndex);
      AddToIn(lists, RecordOf(e, ord + 1, w.logIndex), ord + 1);
    }
    if top.Some? {
      assert OpenIn(top.value, ord) && OpenIn(top.value, ord + 1);
    }
  }

  lemma RecordedKinds(e: TxEvent, top: Option<CallRec>)
    requires Records(e, top)
    ensures e.Changed? || e.Emit?
  {
  }

  lemma RecordOrdinal(e: TxEvent, ordinal: nat, logIndex: nat)
    requires e.Changed? || e.Emit?
    ensures RecordOf(e, ordinal, logIndex).ordinal == ordinal
  {
  }

  lemma StepIn(ctx: Ctx, w: Work, ord: nat, e: TxEvent)
    requires WorkIn(w, ord) && StepWork(ctx, w, ord, e).Ok?
    ensures var r := StepWork(ctx, w, ord, e).value; ord <= r.1 && WorkIn(r.0, r.1)
    ensures var r := StepWork(ctx, w, ord, e).value;
      w.trx.Some? ==> r.0.trx.Some? && r.0.trx.value.beginOrdinal == w.trx.value.beginOrdinal
  {
    hide ListsIn, Records, LeafOnCall, LeafOutside;
    if IsLeaf(e) {
      LeafIn(ctx, w, ord, e);
    } else {
      WorkInGrows(w, ord, ord + 1);
      assert ListsIn(NO_CHANGES, ord + 1) by { EmptyIn(ord + 1); }
      if |w.stack| > 0 {
        assert OpenIn(w.stack[|w.stack| - 1], ord + 1);
      }
    }
  }

  lemma EmptyIn(hi: nat)
    ensures ListsIn(NO_CHANGES, hi)
  {
  }

  lemma {:induction false} RunIn(ctx: Ctx, w: Work, ord: nat, es: seq<TxEvent>)
    requires WorkIn(w, ord) && RunWork(ctx, w, ord, es).Ok?
    ensures var r := RunWork(ctx, w, ord, es).value; ord <= r.1 && WorkIn(r.0, r.1)
    ensures var r := RunWork(ctx, w, ord, es).value;
      w.trx.Some? ==> r.0.trx.Some? && r.0.trx.value.beginOrdinal == w.trx.value.beginOrdinal
    decreases |es|
  {
    hide StepWork, WorkIn;
    if |es| > 0 {
      StepIn(ctx, w, ord, es[0]);
      var r := StepWork(ctx, w, ord, es[0]).value;
      RunIn(ctx, r.0, r.1, es[1..]);
    }
  }

  // ---------------------------------------------------------------- completion

  ghost predicate ReceiptIn(r: Option<TxReceipt>, hi: nat) {
    r.Some? ==> forall i :: 0 <= i < |r.value.logs| ==> 1 <= r.value.logs[i].ordinal <= hi
  }

  /** A completed transaction. */
  ghost predicate TxIn(t: TxTrace, hi: nat) {
    1 <= t.beginOrdinal <= hi && 1 <= t.endOrdinal <= hi && ReceiptIn(t.receipt, hi) && AllClosedIn(t.calls, hi)
  }

  lemma SortedElements<T>(key: T -> int, s: seq<T>)
    ensures |Sort(key, s)| == |s|
    ensures forall i :: 0 <= i < |s| ==> Sort(key, s)[i] in s
  {
    SortOrders(key, s);
    forall i | 0 <= i < |s| ensures Sort(key, s)[i] in s {
      assert Sort(key, s)[i] in multiset(Sort(key, s));
    }
  }

  lemma ConcatIn(a: Lists, b: Lists, hi: nat)
    requires ListsIn(a, hi) && ListsIn(b, hi)
    ensures ListsIn(Concat(a, b), hi)
  {
  }

  lemma ArrangedIn(calls: seq<CallRec>, leftover: Lists, recorded: seq<Recorded>, hi: nat)
    requires |calls| > 0 && AllClosedIn(calls, hi) && ListsIn(leftover, hi)
    ensures AllClosedIn(ArrangedCalls(calls, leftover, recorded), hi)
  {
    hide ListsIn, Concat, KeccakFilter.Kept, WithPreimages;
    SortedElements(CallIndex, calls);
    var sorted := SortCalls(calls);
    assert AllClosedIn(sorted, hi);
    ConcatIn(sorted[0].lists, leftover, hi);
    var rooted := sorted[0 := sorted[0].(lists := Concat(sorted[0].lists, leftover))];
    assert AllClosedIn(rooted, hi);
    AttachIn(rooted, recorded, hi);
  }

  lemma AttachKeeps(calls: seq<CallRec>, recorded: seq<Recorded>)
    ensures forall i :: 0 <= i < |calls| ==>
      Attach(calls, recorded)[i] == calls[i].(keccak := Attach(calls, recorded)[i].keccak)
  {
    hide KeccakFilter.Kept, Explained, LastWithIndex;
  }

  lemma AttachIn(calls: seq<CallRec>, recorded: seq<Recorded>, hi: nat)
    requires AllClosedIn(calls, hi)
    ensures AllClosedIn(Attach(calls, recorded), hi)
  {
    hide ListsIn, KeccakFilter.Kept, Explained;
  }

  /** Propagation only sets the reverted mark. */
  ghost predicate SameButMarks(a: seq<CallRec>, b: seq<CallRec>) {
    |a| == |b| && forall i :: 0 <= i < |a| ==> b[i] == a[i].(stateReverted := b[i].stateReverted)
  }

  lemma {:induction false} PropagateMarks(calls: seq<CallRec>, done: seq<CallRec>)
    requires |done| <= |calls| && SameButMarks(calls[..|done|], done)
    ensures Propagate(calls, done).Ok? ==> SameButMarks(calls, Propagate(calls, done).value)
    decreases |calls| - |done|
  {
    if |done| == |calls| {
      assert calls[..|done|] == calls;
    } else if calls[|done|].parentIndex <= |calls| {
      var next := NextMarked(calls, done);
      assert calls[..|done| + 1] == calls[..|done|] + [calls[|done|]];
      PropagateMarks(calls, done + [next]);
    }
  }

  lemma SettledIn(cfg: Config, calls: seq<CallRec>, hi: nat)
    requires AllClosedIn(calls, hi) && SettledCalls(cfg, calls).Ok?
    ensures AllClosedIn(SettledCalls(cfg, calls).value, hi)
  {
    PropagateMarks(calls, []);
    var propagated := Propagate(calls, []).value;
    forall i | 0 <= i < |calls| ensures ClosedIn(ClearCall(cfg)(propagated[i]), hi) {
      assert propagated[i] == calls[i].(stateReverted := propagated[i].stateReverted);
      assert ClosedIn(calls[i], hi);
    }
  }

  lemma {:induction false} KeepIn(cfg: Config, logs: seq<Change>, hi: nat)
    requires ChangesIn(logs, hi)
    ensures ChangesIn(KeepNeverReverted(cfg, logs), hi)
    decreases |logs|
  {
    if |logs| > 0 {
      KeepIn(cfg, logs[..|logs| - 1], hi);
    }
  }

  lemma {:induction false} SurvivingIn(cfg: Config, calls: seq<CallRec>, hi: nat)
    requires AllClosedIn(calls, hi)
    ensures ChangesIn(Surviving(cfg, calls), hi)
    decreases |calls|
  {
    if |calls| > 0 {
      SurvivingIn(cfg, calls[..|calls| - 1], hi);
      assert ClosedIn(calls[|calls| - 1], hi);
      KeepIn(cfg, calls[|calls| - 1].lists.logs, hi);
    }
  }

  lemma PairIn(cfg: Config, calls: seq<CallRec>, receipt: Option<TxReceipt>, hi: nat)
    requires AllClosedIn(calls, hi) && PairLogs(cfg, calls, receipt).Ok?
    ensures ReceiptIn(PairLogs(cfg, calls, receipt).value, hi)
  {
    SurvivingIn(cfg, calls, hi);
    SortedElements(ChangeOrdinal, Surviving(cfg, calls));
  }

  lemma CompleteIn(cfg: Config, trx: TxTrace, leftover: Lists, recorded: seq<Recorded>,
                   receipt: Option<Receipt>, hi: nat)
    requires UnderWay(trx, hi) && trx.beginOrdinal >= 1 && ListsIn(leftover, hi)
    ensures Complete(cfg, trx, leftover, recorded, receipt, hi + 1).Ok?
        ==> TxIn(Complete(cfg, trx, leftover, recorded, receipt, hi + 1).value, hi + 1)
  {
    hide ArrangedCalls, CheckedAuths, SettledCalls, PairLogs, ReceiptBefore;
    if |trx.calls| > 0 {
      ArrangedIn(trx.calls, leftover, recorded, hi);
      var arranged := ArrangedCalls(trx.calls, leftover, recorded);
      var settled := SettledCalls(cfg, arranged);
      if settled.Ok? {
        SettledIn(cfg, arranged, hi);
        if PairLogs(cfg, settled.value, ReceiptBefore(trx, receipt)).Ok? {
          PairIn(cfg, settled.value, ReceiptBefore(trx, receipt), hi);
        }
      }
    }
  }

  // ---------------------------------------------------------------- renamings that agree

  /** Two renamings agree on the ordinals 1..hi. */
  ghost predicate Agree(f: nat -> nat, g: nat -> nat, hi: nat) {
    forall x: nat :: 1 <= x <= hi ==> f(x) == g(x)
  }

  lemma CallsAgree(f: nat -> nat, g: nat -> nat, s: seq<CallRec>, hi: nat)
    requires Agree(f, g, hi) && AllClosedIn(s, hi)
    ensures CallsBy(f, s) == CallsBy(g, s)
  {
    forall i | 0 <= i < |s| ensures CallBy(f)(s[i]) == CallBy(g)(s[i]) {
      assert ClosedIn(s[i], hi);
      ListsAgree(f, g, s[i].lists, hi);
    }
  }

  lemma ListsAgree(f: nat -> nat, g: nat -> nat, l: Lists, hi: nat)
    requires Agree(f, g, hi) && ListsIn(l, hi)
    ensures ListsBy(f, l) == ListsBy(g, l)
  {
    assert ChangesBy(f, l.balance) == ChangesBy(g, l.balance);
    assert ChangesBy(f, l.nonce) == ChangesBy(g, l.nonce);
    assert ChangesBy(f, l.code) == ChangesBy(g, l.code);
    assert ChangesBy(f, l.storage) == ChangesBy(g, l.storage);
    assert ChangesBy(f, l.logs) == ChangesBy(g, l.logs);
  }

  /** On a completed transaction only the values at its ordinals matter. */
  lemma TxAgree(f: nat -> nat, g: nat -> nat, t: TxTrace, hi: nat)
    requires Agree(f, g, hi) && TxIn(t, hi)
    ensures TxBy(f, t) == TxBy(g, t)
  {
    CallsAgree(f, g, t.calls, hi);
    if t.receipt.Some? {
      assert MapSeq(ReceiptLogBy(f), t.receipt.value.logs) == MapSeq(ReceiptLogBy(g), t.receipt.value.logs);
    }
  }

  /** A transaction state under way is unchanged by a renaming that fixes all ordinals used so far. */
  lemma WorkFixed(f: nat -> nat, w: Work, hi: nat)
    requires WorkIn(w, hi) && forall x: nat :: x <= hi ==> f(x) == x
    ensures WorkBy(f, w) == w
  {
    if w.trx.Some? {
      var calls := w.trx.value.calls;
      forall i | 0 <= i < |calls| ensures CallBy(f)(calls[i]) == calls[i] {
        assert ClosedIn(calls[i], hi);
        ListsFixed(f, calls[i].lists, hi);
      }
      assert CallsBy(f, calls) == calls;
    }
    forall i | 0 <= i < |w.stack| ensures CallBy(f)(w.stack[i]) == w.stack[i] {
      assert OpenIn(w.stack[i], hi);
      ListsFixed(f, w.stack[i].lists, hi);
    }
    assert CallsBy(f, w.stack) == w.stack;
    ListsFixed(f, w.deferred, hi);
  }

  lemma ListsFixed(f: nat -> nat, l: Lists, hi: nat)
    requires ListsIn(l, hi) && forall x: nat :: x <= hi ==> f(x) == x
    ensures ListsBy(f, l) == l
  {
    ChangesFixed(f, l.balance, hi);
    ChangesFixed(f, l.nonce, hi);
    ChangesFixed(f, l.code, hi);
    ChangesFixed(f, l.storage, hi);
    ChangesFixed(f, l.logs, hi);
  }

  lemma ChangesFixed(f: nat -> nat, s: seq<Change>, hi: nat)
    requires ChangesIn(s, hi) && forall x: nat :: x <= hi ==> f(x) == x
    ensures ChangesBy(f, s) == s
  {
  }
}
