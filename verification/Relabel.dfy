/** Renaming ordinals. Tracing looks at ordinals only to order logs, so tracing from another start
    value yields the same trace with every ordinal renamed. This one fact carries both "parallel equals
    sequential" and "interruption is invisible". */
module Relabel {
  import opened Bytes
  import opened Wrappers
  import opened Model
  import opened Sorting
  import opened Completion
  import opened Machine

  /** An order-keeping renaming; zero stands for "not set yet" and stays put. */
  ghost predicate Renaming(f: nat -> nat) {
    f(0) == 0 && forall x: nat, y: nat :: x < y ==> f(x) < f(y)
  }

  function ChangeBy(f: nat -> nat): Change -> Change { (c: Change) => c.(ordinal := f(c.ordinal)) }

  function ChangesBy(f: nat -> nat, s: seq<Change>): seq<Change> { MapSeq(ChangeBy(f), s) }

  function ListsBy(f: nat -> nat, l: Lists): Lists {
    Lists(ChangesBy(f, l.balance), ChangesBy(f, l.nonce), ChangesBy(f, l.code), ChangesBy(f, l.storage),
          ChangesBy(f, l.logs))
  }

  function CallBy(f: nat -> nat): CallRec -> CallRec {
    (c: CallRec) => c.(beginOrdinal := f(c.beginOrdinal), endOrdinal := f(c.endOrdinal), lists := ListsBy(f, c.lists))
  }

  function CallsBy(f: nat -> nat, s: seq<CallRec>): seq<CallRec> { MapSeq(CallBy(f), s) }

  function ReceiptLogBy(f: nat -> nat): ReceiptLog -> ReceiptLog { (r: ReceiptLog) => r.(ordinal := f(r.ordinal)) }

  function ReceiptBy(f: nat -> nat, r: Option<TxReceipt>): Option<TxReceipt> {
    if r.None? then None else Some(TxReceipt(MapSeq(ReceiptLogBy(f), r.value.logs)))
  }

  function TxBy(f: nat -> nat, t: TxTrace): TxTrace {
    t.(beginOrdinal := f(t.beginOrdinal), endOrdinal := f(t.endOrdinal), calls := CallsBy(f, t.calls),
       receipt := ReceiptBy(f, t.receipt))
  }

  function WorkBy(f: nat -> nat, w: Work): Work {
    w.(trx := if w.trx.None? then None else Some(TxBy(f, w.trx.value)), stack := CallsBy(f, w.stack),
       deferred := ListsBy(f, w.deferred))
  }

  // ---------------------------------------------------------------- one renaming after another

  function Identity(): nat -> nat { (x: nat) => x }

  function Compose(f: nat -> nat, g: nat -> nat): nat -> nat { (x: nat) => f(g(x)) }

  lemma ListsCompose(f: nat -> nat, g: nat -> nat, l: Lists)
    ensures ListsBy(f, ListsBy(g, l)) == ListsBy(Compose(f, g), l)
  {
    assert ChangesBy(f, ChangesBy(g, l.balance)) == ChangesBy(Compose(f, g), l.balance);
    assert ChangesBy(f, ChangesBy(g, l.nonce)) == ChangesBy(Compose(f, g), l.nonce);
    assert ChangesBy(f, ChangesBy(g, l.code)) == ChangesBy(Compose(f, g), l.code);
    assert ChangesBy(f, ChangesBy(g, l.storage)) == ChangesBy(Compose(f, g), l.storage);
    assert ChangesBy(f, ChangesBy(g, l.logs)) == ChangesBy(Compose(f, g), l.logs);
  }

  lemma CallsCompose(f: nat -> nat, g: nat -> nat, s: seq<CallRec>)
    ensures CallsBy(f, CallsBy(g, s)) == CallsBy(Compose(f, g), s)
  {
    forall i | 0 <= i < |s| ensures CallsBy(f, CallsBy(g, s))[i] == CallBy(Compose(f, g))(s[i]) {
      ListsCompose(f, g, s[i].lists);
    }
  }

  lemma TxCompose(f: nat -> nat, g: nat -> nat, t: TxTrace)
    ensures TxBy(f, TxBy(g, t)) == TxBy(Compose(f, g), t)
  {
    hide ListsBy;
    CallsCompose(f, g, t.calls);
    if t.receipt.Some? {
      var logs := t.receipt.value.logs;
      assert MapSeq(ReceiptLogBy(f), MapSeq(ReceiptLogBy(g), logs)) == MapSeq(ReceiptLogBy(Compose(f, g)), logs);
    }
  }

  // ---------------------------------------------------------------- one event

  lemma MapConcat<T, U>(g: T -> U, a: seq<T>, b: seq<T>)
    ensures MapSeq(g, a + b) == MapSeq(g, a) + MapSeq(g, b)
  {
  }

  lemma MapTake<T, U>(g: T -> U, s: seq<T>, n: nat)
    requires n <= |s|
    ensures MapSeq(g, s[..n]) == MapSeq(g, s)[..n]
  {
  }

  lemma AddToBy(f: nat -> nat, l: Lists, c: Change)
    ensures ListsBy(f, AddTo(l, c)) == AddTo(ListsBy(f, l), ChangeBy(f)(c))
  {
    MapConcat(ChangeBy(f), l.balance, [c]);
    MapConcat(ChangeBy(f), l.nonce, [c]);
    MapConcat(ChangeBy(f), l.code, [c]);
    MapConcat(ChangeBy(f), l.storage, [c]);
    MapConcat(ChangeBy(f), l.logs, [c]);
    assert MapSeq(ChangeBy(f), [c]) == [ChangeBy(f)(c)];
  }

  lemma ConcatBy(f: nat -> nat, a: Lists, b: Lists)
    ensures ListsBy(f, Concat(a, b)) == Concat(ListsBy(f, a), ListsBy(f, b))
  {
    MapConcat(ChangeBy(f), a.balance, b.balance);
    MapConcat(ChangeBy(f), a.nonce, b.nonce);
    MapConcat(ChangeBy(f), a.code, b.code);
    MapConcat(ChangeBy(f), a.storage, b.storage);
    MapConcat(ChangeBy(f), a.logs, b.logs);
  }

  lemma PushBy(f: nat -> nat, s: seq<CallRec>, c: CallRec)
    ensures CallsBy(f, s + [c]) == CallsBy(f, s) + [CallBy(f)(c)]
  {
  }

  lemma ReplaceTopBy(f: nat -> nat, s: seq<CallRec>, c: CallRec)
    requires |s| > 0
    ensures CallsBy(f, ReplaceTop(s, c)) == ReplaceTop(CallsBy(f, s), CallBy(f)(c))
  {
    MapTake(CallBy(f), s, |s| - 1);
    PushBy(f, s[..|s| - 1], c);
  }

  /** The outcome of an event, renamed; `o` is the counter the renamed run started the event at. */
  function OutcomeBy(f: nat -> nat, ord: nat, o: nat, r: Result<(Work, nat)>): Result<(Work, nat)> {
    match r
    case Panic => Panic
    case Ok(p) => Ok((WorkBy(f, p.0), if p.1 == ord then o else o + 1))
  }

  lemma LeafOnCallBy(f: nat -> nat, c: CallRec, ord: nat, o: nat, logIndex: nat, e: TxEvent)
    requires f(ord + 1) == o + 1 && IsLeaf(e)
    ensures Records(e, Some(CallBy(f)(c))) == Records(e, Some(c))
    ensures LeafOnCall(CallBy(f)(c), e, o, logIndex) == CallBy(f)(LeafOnCall(c, e, ord, logIndex))
  {
    if Records(e, Some(c)) {
      AddToBy(f, c.lists, RecordOf(e, ord + 1, logIndex));
    }
  }

  lemma LeafOutsideBy(f: nat -> nat, d: Lists, ord: nat, o: nat, logIndex: nat, e: TxEvent)
    requires f(ord + 1) == o + 1 && IsLeaf(e)
    ensures LeafOutside(ListsBy(f, d), e, o, logIndex) == ListsBy(f, LeafOutside(d, e, ord, logIndex))
  {
    if Records(e, None) {
      AddToBy(f, d, RecordOf(e, ord + 1, logIndex));
    }
  }

  lemma LeafBy(f: nat -> nat, ctx: Ctx, w: Work, ord: nat, o: nat, e: TxEvent)
    requires Renaming(f) && f(ord + 1) == o + 1 && IsLeaf(e)
    ensures StepLeaf(ctx, WorkBy(f, w), o, e) == OutcomeBy(f, ord, o, StepLeaf(ctx, w, ord, e))
  {
    hide LeafOnCall, LeafOutside, ListsBy, CallBy;
    var w' := WorkBy(f, w);
    if |w.stack| > 0 {
      var c := w.stack[|w.stack| - 1];
      assert Top(w'.stack) == Some(CallBy(f)(c));
      LeafOnCallBy(f, c, ord, o, w.logIndex, e);
      ReplaceTopBy(f, w.stack, LeafOnCall(c, e, ord, w.logIndex));
      SameIndex(f, c);
    } else {
      LeafOutsideBy(f, w.deferred, ord, o, w.logIndex, e);
    }
  }

  lemma SameIndex(f: nat -> nat, c: CallRec)
    ensures CallBy(f)(c).index == c.index
  {
  }

  lemma EnterBy(f: nat -> nat, ctx: Ctx, w: Work, ord: nat, o: nat, depth: int, frame: Frame)
    requires Renaming(f) && f(ord + 1) == o + 1
    ensures StepEnter(ctx, WorkBy(f, w), o, depth, frame) == OutcomeBy(f, ord, o, StepEnter(ctx, w, ord, depth, frame))
  {
    hide DelegationOf, KindOf, CallBy, NewCall, Numbered, ListsBy, CallsBy;
    var w' := WorkBy(f, w);
    var lists := if depth == 0 then w.deferred else NO_CHANGES;
    var delegation := DelegationOf(ctx, w.reader, frame);
    assert DelegationOf(ctx, w'.reader, frame) == delegation;
    NothingBy(f);
    TopIndexBy(f, w.stack);
    NewCallBy(f, frame, delegation, ord + 1, lists, w.index + 1, |w.stack|, TopIndex(w.stack));
    PushBy(f, w.stack, Numbered(NewCall(frame, delegation, ord + 1, lists), w.index + 1, |w.stack|, TopIndex(w.stack)));
  }

  lemma NothingBy(f: nat -> nat)
    ensures ListsBy(f, NO_CHANGES) == NO_CHANGES
  {
  }

  lemma TopIndexBy(f: nat -> nat, stack: seq<CallRec>)
    ensures TopIndex(CallsBy(f, stack)) == TopIndex(stack) && |CallsBy(f, stack)| == |stack|
  {
  }

  lemma NewCallBy(f: nat -> nat, frame: Frame, delegatesTo: Option<Bytes>, begin: nat, lists: Lists, index: nat,
                  depth: nat, parent: nat)
    requires Renaming(f)
    ensures CallBy(f)(Numbered(NewCall(frame, delegatesTo, begin, lists), index, depth, parent))
         == Numbered(NewCall(frame, delegatesTo, f(begin), ListsBy(f, lists)), index, depth, parent)
  {
    hide ListsBy;
  }

  lemma LeaveBy(f: nat -> nat, ctx: Ctx, w: Work, ord: nat, o: nat, x: Exit)
    requires Renaming(f) && f(ord + 1) == o + 1
    ensures StepLeave(ctx, WorkBy(f, w), o, x) == OutcomeBy(f, ord, o, StepLeave(ctx, w, ord, x))
  {
    var w' := WorkBy(f, w);
    if |w.stack| > 0 && w.trx.Some? {
      var n := |w.stack| - 1;
      assert w'.stack[n] == CallBy(f)(w.stack[n]);
      assert Closed(w'.stack[n], x, o + 1) == CallBy(f)(Closed(w.stack[n], x, ord + 1));
      MapTake(CallBy(f), w.stack, n);
      PushBy(f, w.trx.value.calls, Closed(w.stack[n], x, ord + 1));
    }
  }

  lemma StepBy(f: nat -> nat, ctx: Ctx, w: Work, ord: nat, o: nat, e: TxEvent)
    requires Renaming(f) && f(ord + 1) == o + 1
    ensures StepWork(ctx, WorkBy(f, w), o, e) == OutcomeBy(f, ord, o, StepWork(ctx, w, ord, e))
    ensures StepWork(ctx, w, ord, e).Ok? ==> ord <= StepWork(ctx, w, ord, e).value.1 <= ord + 1
  {
    match e
    case Enter(depth, frame) => EnterBy(f, ctx, w, ord, o, depth, frame);
    case Leave(x) => LeaveBy(f, ctx, w, ord, o, x);
    case _ => LeafBy(f, ctx, w, ord, o, e);
  }

  /** From counter `ord` on, `f` is a shift: it maps the ordinals about to be used to those used by a
      run started at counter `o`. */
  ghost predicate ShiftsFrom(f: nat -> nat, ord: nat, o: nat) {
    Renaming(f) && ord <= o && forall x: nat :: x > ord ==> f(x) == x + (o - ord)
  }

  /** A run of events, renamed. */
  lemma {:induction false} RunBy(f: nat -> nat, ctx: Ctx, w: Work, ord: nat, o: nat, es: seq<TxEvent>)
    requires ShiftsFrom(f, ord, o)
    ensures RunWork(ctx, WorkBy(f, w), o, es)
         == match RunWork(ctx, w, ord, es)
            case Panic => Panic
            case Ok(r) => Ok((WorkBy(f, r.0), r.1 + (o - ord)))
    ensures RunWork(ctx, w, ord, es).Ok? ==> RunWork(ctx, w, ord, es).value.1 >= ord
    decreases |es|
  {
    hide StepWork, WorkBy;
    if |es| > 0 {
      StepBy(f, ctx, w, ord, o, es[0]);
      var r := StepWork(ctx, w, ord, es[0]);
      if r.Ok? {
        var step := r.value.1 - ord;
        RunBy(f, ctx, r.value.0, ord + step, o + step, es[1..]);
      }
    }
  }

  // ---------------------------------------------------------------- completion

  lemma {:induction false} FindBy(f: nat -> nat, changes: seq<Change>, used: set<nat>, a: Auth, from: nat)
    ensures FindNonceChange(ChangesBy(f, changes), used, a, from) == FindNonceChange(changes, used, a, from)
    decreases |changes| - from
  {
    if from < |changes| {
      FindBy(f, changes, used, a, from + 1);
    }
  }

  lemma {:induction false} DiscardBy(f: nat -> nat, auths: seq<Auth>, changes: seq<Change>, used: set<nat>)
    ensures Discard(auths, ChangesBy(f, changes), used) == Discard(auths, changes, used)
    decreases |auths|
  {
    if |auths| > 0 {
      FindBy(f, changes, used, auths[0], 0);
      var found := FindNonceChange(changes, used, auths[0], 0);
      DiscardBy(f, auths[1..], changes, used);
      if found.Some? {
        DiscardBy(f, auths[1..], changes, used + {found.value});
      }
    }
  }

  lemma {:induction false} StorageKeysBy(f: nat -> nat, changes: seq<Change>)
    ensures StorageKeys(ChangesBy(f, changes)) == StorageKeys(changes)
    decreases |changes|
  {
    if |changes| > 0 {
      MapTake(ChangeBy(f), changes, |changes| - 1);
      StorageKeysBy(f, changes[..|changes| - 1]);
    }
  }

  lemma {:induction false} AllStorageKeysBy(f: nat -> nat, calls: seq<CallRec>)
    ensures AllStorageKeys(CallsBy(f, calls)) == AllStorageKeys(calls)
    decreases |calls|
  {
    if |calls| > 0 {
      MapTake(CallBy(f), calls, |calls| - 1);
      AllStorageKeysBy(f, calls[..|calls| - 1]);
      StorageKeysBy(f, calls[|calls| - 1].lists.storage);
    }
  }

  lemma AttachBy(f: nat -> nat, calls: seq<CallRec>, recorded: seq<Recorded>)
    ensures Attach(CallsBy(f, calls), recorded) == CallsBy(f, Attach(calls, recorded))
  {
    AllStorageKeysBy(f, calls);
    var calls' := CallsBy(f, calls);
    forall i | 0 <= i < |calls|
      ensures Attach(calls', recorded)[i] == CallBy(f)(Attach(calls, recorded)[i])
    {
      assert LastWithIndex(calls', i) == LastWithIndex(calls, i) by {
        assert forall j :: 0 <= j < |calls| ==> calls'[j].index == calls[j].index;
      }
    }
  }

  lemma SortCallsBy(f: nat -> nat, calls: seq<CallRec>)
    ensures SortCalls(CallsBy(f, calls)) == CallsBy(f, SortCalls(calls))
  {
    forall x, y | x in calls && y in calls ensures SameOrder(CallIndex, CallBy(f), CallIndex, x, y) {
    }
    SortCommutes(CallIndex, CallBy(f), CallIndex, calls);
  }

  lemma ArrangedBy(f: nat -> nat, calls: seq<CallRec>, leftover: Lists, recorded: seq<Recorded>)
    requires |calls| > 0
    ensures ArrangedCalls(CallsBy(f, calls), ListsBy(f, leftover), recorded)
         == CallsBy(f, ArrangedCalls(calls, leftover, recorded))
  {
    SortCallsBy(f, calls);
    SortOrders(CallIndex, calls);
    var sorted := SortCalls(calls);
    var sorted' := CallsBy(f, sorted);
    ConcatBy(f, sorted[0].lists, leftover);
    var root := sorted[0].(lists := Concat(sorted[0].lists, leftover));
    var root' := sorted'[0].(lists := Concat(sorted'[0].lists, ListsBy(f, leftover)));
    assert root' == CallBy(f)(root);
    assert CallsBy(f, sorted[0 := root]) == sorted'[0 := root'];
    AttachBy(f, sorted[0 := root], recorded);
  }

  lemma NextMarkedBy(f: nat -> nat, calls: seq<CallRec>, done: seq<CallRec>)
    requires |done| < |calls| && calls[|done|].parentIndex <= |calls|
    ensures NextMarked(CallsBy(f, calls), CallsBy(f, done)) == CallBy(f)(NextMarked(calls, done))
  {
    hide ListsBy;
    var all, all' := done + calls[|done|..], CallsBy(f, done) + CallsBy(f, calls)[|done|..];
    assert |all'| == |all| && forall i :: 0 <= i < |all| ==> all'[i].stateReverted == all[i].stateReverted;
  }

  lemma {:induction false} PropagateBy(f: nat -> nat, calls: seq<CallRec>, done: seq<CallRec>)
    requires |done| <= |calls|
    ensures Propagate(CallsBy(f, calls), CallsBy(f, done))
         == match Propagate(calls, done) case Panic => Panic case Ok(r) => Ok(CallsBy(f, r))
    decreases |calls| - |done|
  {
    hide ListsBy, NextMarked;
    if |done| < |calls| && calls[|done|].parentIndex <= |calls| {
      NextMarkedBy(f, calls, done);
      PushBy(f, done, NextMarked(calls, done));
      PropagateBy(f, calls, done + [NextMarked(calls, done)]);
    }
  }

  lemma ClearCallBy(cfg: Config, f: nat -> nat, c: CallRec)
    ensures ClearCall(cfg)(CallBy(f)(c)) == CallBy(f)(ClearCall(cfg)(c))
  {
    if c.stateReverted {
      var logs := c.lists.logs;
      assert MapSeq(ClearLog(cfg), ChangesBy(f, logs)) == ChangesBy(f, MapSeq(ClearLog(cfg), logs));
    }
  }

  lemma SettledBy(cfg: Config, f: nat -> nat, calls: seq<CallRec>)
    ensures SettledCalls(cfg, CallsBy(f, calls))
         == match SettledCalls(cfg, calls) case Panic => Panic case Ok(r) => Ok(CallsBy(f, r))
  {
    hide ClearCall, Propagate;
    PropagateBy(f, calls, []);
    var r := Propagate(calls, []);
    assert CallsBy(f, []) == [];
    if r.Ok? {
      forall i | 0 <= i < |r.value|
        ensures ClearReverted(cfg, CallsBy(f, r.value))[i] == CallBy(f)(ClearReverted(cfg, r.value)[i])
      {
        ClearCallBy(cfg, f, r.value[i]);
      }
      assert ClearReverted(cfg, CallsBy(f, r.value)) == CallsBy(f, ClearReverted(cfg, r.value));
    }
  }

  lemma {:induction false} KeepNeverRevertedBy(cfg: Config, f: nat -> nat, logs: seq<Change>)
    ensures KeepNeverReverted(cfg, ChangesBy(f, logs)) == ChangesBy(f, KeepNeverReverted(cfg, logs))
    decreases |logs|
  {
    if |logs| > 0 {
      var front, last := logs[..|logs| - 1], logs[|logs| - 1];
      MapTake(ChangeBy(f), logs, |logs| - 1);
      KeepNeverRevertedBy(cfg, f, front);
      MapConcat(ChangeBy(f), KeepNeverReverted(cfg, front), [last]);
    }
  }

  lemma SurvivingOfBy(cfg: Config, f: nat -> nat, c: CallRec)
    ensures SurvivingOf(cfg, CallBy(f)(c)) == ChangesBy(f, SurvivingOf(cfg, c))
  {
    KeepNeverRevertedBy(cfg, f, c.lists.logs);
  }

  lemma {:induction false} SurvivingBy(cfg: Config, f: nat -> nat, calls: seq<CallRec>)
    ensures Surviving(cfg, CallsBy(f, calls)) == ChangesBy(f, Surviving(cfg, calls))
    decreases |calls|
  {
    hide SurvivingOf;
    if |calls| > 0 {
      var front, last := calls[..|calls| - 1], calls[|calls| - 1];
      MapTake(CallBy(f), calls, |calls| - 1);
      SurvivingBy(cfg, f, front);
      SurvivingOfBy(cfg, f, last);
      MapConcat(ChangeBy(f), Surviving(cfg, front), SurvivingOf(cfg, last));
    }
  }

  lemma SortLogsBy(f: nat -> nat, logs: seq<Change>)
    requires Renaming(f)
    ensures Sort(ChangeOrdinal, ChangesBy(f, logs)) == ChangesBy(f, Sort(ChangeOrdinal, logs))
  {
    forall x, y | x in logs && y in logs ensures SameOrder(ChangeOrdinal, ChangeBy(f), ChangeOrdinal, x, y) {
      assert x.ordinal < y.ordinal ==> f(x.ordinal) < f(y.ordinal);
      assert y.ordinal < x.ordinal ==> f(y.ordinal) < f(x.ordinal);
    }
    SortCommutes(ChangeOrdinal, ChangeBy(f), ChangeOrdinal, logs);
  }

  lemma AssignBy(f: nat -> nat, sorted: seq<Change>, logs: seq<ReceiptLog>)
    ensures AssignReceipt(ChangesBy(f, sorted), MapSeq(ReceiptLogBy(f), logs))
         == match AssignReceipt(sorted, logs) case Panic => Panic case Ok(r) => Ok(MapSeq(ReceiptLogBy(f), r))
  {
    var sorted', logs' := ChangesBy(f, sorted), MapSeq(ReceiptLogBy(f), logs);
    if |sorted| == |logs| {
      assert forall i :: 0 <= i < |logs| ==> sorted'[i].body == sorted[i].body
                                             && logs'[i].blockIndex == logs[i].blockIndex;
      if i :| 0 <= i < |logs| && (!sorted[i].body.Log? || sorted[i].body.blockIndex != logs[i].blockIndex) {
        assert !sorted'[i].body.Log? || sorted'[i].body.blockIndex != logs'[i].blockIndex;
        assert AssignReceipt(sorted, logs).Panic?;
      } else {
        assert AssignReceipt(sorted, logs).Ok? && AssignReceipt(sorted', logs').Ok?;
        assert AssignReceipt(sorted', logs').value == MapSeq(ReceiptLogBy(f), AssignReceipt(sorted, logs).value);
      }
    }
  }

  lemma PairBy(cfg: Config, f: nat -> nat, calls: seq<CallRec>, receipt: Option<TxReceipt>)
    requires Renaming(f)
    ensures PairLogs(cfg, CallsBy(f, calls), ReceiptBy(f, receipt))
         == match PairLogs(cfg, calls, receipt) case Panic => Panic case Ok(r) => Ok(ReceiptBy(f, r))
  {
    hide AssignReceipt;
    SurvivingBy(cfg, f, calls);
    SortLogsBy(f, Surviving(cfg, calls));
    AssignBy(f, Sort(ChangeOrdinal, Surviving(cfg, calls)), LogsOf(receipt));
    assert LogsOf(ReceiptBy(f, receipt)) == MapSeq(ReceiptLogBy(f), LogsOf(receipt));
  }

  function TxResultBy(f: nat -> nat, r: Result<TxTrace>): Result<TxTrace> {
    match r case Panic => Panic case Ok(t) => Ok(TxBy(f, t))
  }

  lemma CheckedAuthsBy(f: nat -> nat, trx: TxTrace)
    requires |trx.calls| > 0
    ensures CheckedAuths(TxBy(f, trx)) == CheckedAuths(trx)
  {
    SortCallsBy(f, trx.calls);
    SortOrders(CallIndex, trx.calls);
    var sorted := SortCalls(trx.calls);
    assert SortCalls(TxBy(f, trx).calls) == CallsBy(f, sorted);
    hide SortCalls;
    assert CallsBy(f, sorted)[0] == CallBy(f)(sorted[0]);
    assert CallsBy(f, sorted)[0].lists.nonce == ChangesBy(f, sorted[0].lists.nonce);
    DiscardBy(f, trx.auths, sorted[0].lists.nonce, {});
  }

  lemma ReceiptBeforeBy(f: nat -> nat, trx: TxTrace, receipt: Option<Receipt>)
    requires f(0) == 0
    ensures ReceiptBefore(TxBy(f, trx), receipt) == ReceiptBy(f, ReceiptBefore(trx, receipt))
  {
    if receipt.Some? {
      assert NewReceipt(receipt.value).logs == MapSeq(ReceiptLogBy(f), NewReceipt(receipt.value).logs);
    }
  }

  /** Completing a transaction commutes with renaming its ordinals. */
  lemma CompleteBy(cfg: Config, f: nat -> nat, trx: TxTrace, leftover: Lists, recorded: seq<Recorded>,
                   receipt: Option<Receipt>, endOrdinal: nat)
    requires Renaming(f)
    ensures Complete(cfg, TxBy(f, trx), ListsBy(f, leftover), recorded, receipt, f(endOrdinal))
         == TxResultBy(f, Complete(cfg, trx, leftover, recorded, receipt, endOrdinal))
  {
    hide ArrangedCalls, CheckedAuths, SettledCalls, PairLogs, ReceiptBefore;
    if |trx.calls| > 0 {
      ArrangedBy(f, trx.calls, leftover, recorded);
      var arranged := ArrangedCalls(trx.calls, leftover, recorded);
      SettledBy(cfg, f, arranged);
      CheckedAuthsBy(f, trx);
      ReceiptBeforeBy(f, trx, receipt);
      var settled := SettledCalls(cfg, arranged);
      if settled.Ok? {
        PairBy(cfg, f, settled.value, ReceiptBefore(trx, receipt));
        FinishBy(f, trx, CheckedAuths(trx), settled.value, receipt,
                 PairLogs(cfg, settled.value, ReceiptBefore(trx, receipt)), endOrdinal);
      }
    }
  }

  lemma FinishBy(f: nat -> nat, trx: TxTrace, auths: seq<Auth>, calls: seq<CallRec>, given: Option<Receipt>,
                 paired: Result<Option<TxReceipt>>, endOrdinal: nat)
    requires |calls| > 0
    ensures paired.Ok? ==>
      var done := Finish(trx, auths, calls, given, paired.value, endOrdinal);
      Finish(TxBy(f, trx), auths, CallsBy(f, calls), given, ReceiptBy(f, paired.value), f(endOrdinal)) == TxBy(f, done)
  {
  }
}
