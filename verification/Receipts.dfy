/** Receipt logs against call logs (tracer.go:1243-1315): when a transaction completes, its receipt logs are
    its surviving call logs in emission order. */
module Receipts {
  import opened Bytes
  import opened Wrappers
  import opened Model
  import opened Sorting
  import opened Completion
  import opened Machine
  import opened Ranges
  import opened Counts
  import opened Streams
  import opened Relabel

  // ---------------------------------------------------------------- emission order of logs

  ghost predicate HasLog(cs: seq<CallRec>, x: Change) {
    exists i :: 0 <= i < |cs| && x in cs[i].lists.logs
  }

  /** Log `x` is held by the transaction under way: by a closed call, an open call, or the deferred state. */
  ghost predicate Holds(w: Work, x: Change) {
    (w.trx.Some? && HasLog(w.trx.value.calls, x)) || HasLog(w.stack, x) || x in w.deferred.logs
  }

  ghost predicate Earlier(x: Change, y: Change) {
    x.body.Log? && y.body.Log? && (x.ordinal < y.ordinal ==> x.body.index < y.body.index)
  }

  /** Logs are indexed in the order of their ordinals. */
  ghost predicate Chronological(w: Work, ord: nat) {
    && (forall x :: Holds(w, x) ==> x.body.Log? && 1 <= x.ordinal <= ord && x.body.index < w.logIndex)
    && forall x, y :: Holds(w, x) && Holds(w, y) ==> Earlier(x, y)
  }

  lemma HasLogPush(cs: seq<CallRec>, c: CallRec, x: Change)
    ensures HasLog(cs + [c], x) <==> HasLog(cs, x) || x in c.lists.logs
  {
    var all := cs + [c];
    if HasLog(cs, x) {
      var i :| 0 <= i < |cs| && x in cs[i].lists.logs;
      assert x in all[i].lists.logs;
    }
    if x in c.lists.logs {
      assert x in all[|cs|].lists.logs;
    }
    if HasLog(all, x) {
      var i :| 0 <= i < |all| && x in all[i].lists.logs;
      assert i < |cs| ==> x in cs[i].lists.logs;
    }
  }

  lemma LastLogs(cs: seq<CallRec>, x: Change)
    requires |cs| > 0
    ensures HasLog(cs, x) <==> HasLog(cs[..|cs| - 1], x) || x in cs[|cs| - 1].lists.logs
  {
    assert cs == cs[..|cs| - 1] + [cs[|cs| - 1]];
    HasLogPush(cs[..|cs| - 1], cs[|cs| - 1], x);
  }

  lemma AddedLogs(l: Lists, c: Change, x: Change)
    requires x in AddTo(l, c).logs
    ensures x in l.logs || (x == c && c.body.Log?)
  {
  }

  /** An event adds at most the log it reports, with the next ordinal and the next index. */
  lemma EventLogs(ctx: Ctx, w: Work, ord: nat, e: TxEvent, x: Change)
    requires StepWork(ctx, w, ord, e).Ok? && Holds(StepWork(ctx, w, ord, e).value.0, x)
    ensures Holds(w, x) || (e.Emit? && x == Change(ord + 1, Log(e.log, w.logIndex, e.blockIndex)))
  {
    hide HasLog, AddTo;
    var w1 := StepWork(ctx, w, ord, e).value.0;
    match e
    case Enter(depth, f) =>
      if f.typ != SELFDESTRUCT {
        HasLogPush(w.stack, w1.stack[|w.stack|], x);
      }
    case Leave(exit) =>
      if !w.suicided {
        LastLogs(w.stack, x);
        HasLogPush(w.trx.value.calls, Closed(w.stack[|w.stack| - 1], exit, ord + 1), x);
      }
    case _ => LeafLogs(ctx, w, ord, e, x);
  }

  lemma LeafLogs(ctx: Ctx, w: Work, ord: nat, e: TxEvent, x: Change)
    requires IsLeaf(e) && StepLeaf(ctx, w, ord, e).Ok? && Holds(StepLeaf(ctx, w, ord, e).value.0, x)
    ensures Holds(w, x) || (e.Emit? && x == Change(ord + 1, Log(e.log, w.logIndex, e.blockIndex)))
  {
    hide HasLog, AddTo, IsNoOp, IgnoredAfterSuicide;
    var w1 := StepLeaf(ctx, w, ord, e).value.0;
    if |w.stack| > 0 {
      var c := w.stack[|w.stack| - 1];
      LastLogs(w.stack, x);
      HasLogPush(w.stack[..|w.stack| - 1], LeafOnCall(c, e, ord, w.logIndex), x);
      if Records(e, Some(c)) && x in AddTo(c.lists, RecordOf(e, ord + 1, w.logIndex)).logs {
        AddedLogs(c.lists, RecordOf(e, ord + 1, w.logIndex), x);
      }
    } else if Records(e, None) && x in w1.deferred.logs {
      AddedLogs(w.deferred, RecordOf(e, ord + 1, w.logIndex), x);
    }
  }

  lemma EventFacts(ctx: Ctx, w: Work, ord: nat, e: TxEvent)
    requires StepWork(ctx, w, ord, e).Ok?
    ensures var r := StepWork(ctx, w, ord, e).value;
      && r.1 >= ord && r.0.logIndex == (if e.Emit? then w.logIndex + 1 else w.logIndex) && (e.Emit? ==> r.1 == ord + 1)
  {
  }

  lemma EventChronological(ctx: Ctx, w: Work, ord: nat, e: TxEvent)
    requires StepWork(ctx, w, ord, e).Ok? && Chronological(w, ord)
    ensures var r := StepWork(ctx, w, ord, e).value; Chronological(r.0, r.1)
  {
    hide StepWork, Holds;
    EventFacts(ctx, w, ord, e);
    var r := StepWork(ctx, w, ord, e).value;
    forall x | Holds(r.0, x) ensures x.body.Log? && 1 <= x.ordinal <= r.1 && x.body.index < r.0.logIndex {
      EventLogs(ctx, w, ord, e, x);
    }
    forall x, y | Holds(r.0, x) && Holds(r.0, y) ensures Earlier(x, y) {
      EventLogs(ctx, w, ord, e, x);
      EventLogs(ctx, w, ord, e, y);
    }
  }

  lemma {:induction false} RunChronological(ctx: Ctx, w: Work, ord: nat, es: seq<TxEvent>)
    requires RunWork(ctx, w, ord, es).Ok? && Chronological(w, ord)
    ensures var r := RunWork(ctx, w, ord, es).value; Chronological(r.0, r.1)
    decreases |es|
  {
    hide StepWork, Chronological;
    if |es| > 0 {
      EventChronological(ctx, w, ord, es[0]);
      var r := StepWork(ctx, w, ord, es[0]).value;
      RunChronological(ctx, r.0, r.1, es[1..]);
    }
  }

  // ---------------------------------------------------------------- distinct ordinals of a run

  /** No ordinal above `ord` is recorded, and none twice. */
  ghost predicate Once(w: Work, ord: nat) {
    AllOpen(w.stack) && forall o: nat :: o >= 1 ==> CountWork(w, o) <= One(o <= ord)
  }

  lemma {:induction false} RunOnce(ctx: Ctx, w: Work, ord: nat, es: seq<TxEvent>)
    requires RunWork(ctx, w, ord, es).Ok? && Once(w, ord)
    ensures var r := RunWork(ctx, w, ord, es).value; Once(r.0, r.1)
    decreases |es|
  {
    hide StepWork, CountWork;
    if |es| > 0 {
      var r := StepWork(ctx, w, ord, es[0]).value;
      EventCounts(ctx, w, ord, es[0], 1);
      forall o: nat | o >= 1 ensures CountWork(r.0, o) <= One(o <= r.1) {
        EventCounts(ctx, w, ord, es[0], o);
      }
      RunOnce(ctx, r.0, r.1, es[1..]);
    }
  }

  lemma {:induction false} CountKept(cfg: Config, logs: seq<Change>, o: nat)
    ensures CountChanges(KeepNeverReverted(cfg, logs), o) <= CountChanges(logs, o)
    decreases |logs|
  {
    if |logs| > 0 {
      var front, last := logs[..|logs| - 1], logs[|logs| - 1];
      CountKept(cfg, front, o);
      CountPush(KeepNeverReverted(cfg, front), last, o);
      assert KeepNeverReverted(cfg, front) + [] == KeepNeverReverted(cfg, front);
    }
  }

  lemma {:induction false} CountSurviving(cfg: Config, calls: seq<CallRec>, o: nat)
    ensures CountChanges(Surviving(cfg, calls), o) <= CountCalls(calls, o)
    decreases |calls|
  {
    hide CountChanges, KeepNeverReverted;
    if |calls| == 0 {
      assert CountChanges([], o) == 0 by { EmptyCount(o); }
    } else {
      var c := calls[|calls| - 1];
      CountSurviving(cfg, calls[..|calls| - 1], o);
      CountKept(cfg, c.lists.logs, o);
      CountJoin(Surviving(cfg, calls[..|calls| - 1]), SurvivingOf(cfg, c), o);
    }
  }

  lemma EmptyCount(o: nat)
    ensures CountChanges([], o) == 0
  {
  }

  lemma {:induction false} CountInsertChange(c: Change, s: seq<Change>, o: nat)
    ensures CountChanges(Insert(ChangeOrdinal, c, s), o) == CountChanges(s, o) + One(c.ordinal == o)
    decreases |s|
  {
    if |s| == 0 || ChangeOrdinal(s[|s| - 1]) <= ChangeOrdinal(c) {
      CountPush(s, c, o);
    } else {
      CountInsertChange(c, s[..|s| - 1], o);
      CountPush(Insert(ChangeOrdinal, c, s[..|s| - 1]), s[|s| - 1], o);
    }
  }

  lemma {:induction false} CountSortChanges(s: seq<Change>, o: nat)
    ensures CountChanges(Sort(ChangeOrdinal, s), o) == CountChanges(s, o)
    decreases |s|
  {
    hide Insert;
    if |s| > 0 {
      CountSortChanges(s[..|s| - 1], o);
      CountInsertChange(s[|s| - 1], Sort(ChangeOrdinal, s[..|s| - 1]), o);
    }
  }

  lemma {:induction false} CountedTwice(s: seq<Change>, i: nat, j: nat)
    requires i < j < |s| && s[i].ordinal == s[j].ordinal
    ensures CountChanges(s, s[i].ordinal) >= 2
    decreases |s|
  {
    var o := s[i].ordinal;
    if j < |s| - 1 {
      CountedTwice(s[..|s| - 1], i, j);
    } else {
      CountedOnce(s[..|s| - 1], i);
    }
  }

  lemma {:induction false} CountedOnce(s: seq<Change>, i: nat)
    requires i < |s|
    ensures CountChanges(s, s[i].ordinal) >= 1
    decreases |s|
  {
    if i < |s| - 1 {
      CountedOnce(s[..|s| - 1], i);
    }
  }

  lemma SortedStrictly(s: seq<Change>)
    requires forall o: nat :: o >= 1 ==> CountChanges(s, o) <= 1
    requires forall i :: 0 <= i < |s| ==> s[i].ordinal >= 1
    ensures StrictlyOrdered(ChangeOrdinal, Sort(ChangeOrdinal, s)) && multiset(Sort(ChangeOrdinal, s)) == multiset(s)
  {
    hide CountChanges, Sort;
    SortOrders(ChangeOrdinal, s);
    SortedElements(ChangeOrdinal, s);
    var t := Sort(ChangeOrdinal, s);
    forall i, j | 0 <= i < j < |t| ensures ChangeOrdinal(t[i]) < ChangeOrdinal(t[j]) {
      assert ChangeOrdinal(t[i]) <= ChangeOrdinal(t[j]);
      assert t[i] in s;
      if t[i].ordinal == t[j].ordinal {
        CountedTwice(t, i, j);
        CountSortChanges(s, t[i].ordinal);
      }
    }
  }

  // ---------------------------------------------------------------- logs through completion

  lemma {:induction false} SurvivorHeld(cfg: Config, calls: seq<CallRec>, x: Change)
    requires x in Surviving(cfg, calls)
    ensures HasLog(calls, x)
    decreases |calls|
  {
    var c := calls[|calls| - 1];
    LastLogs(calls, x);
    if x in Surviving(cfg, calls[..|calls| - 1]) {
      SurvivorHeld(cfg, calls[..|calls| - 1], x);
    } else {
      KeptHeld(cfg, c.lists.logs, x);
    }
  }

  lemma {:induction false} KeptHeld(cfg: Config, logs: seq<Change>, x: Change)
    ensures x in KeepNeverReverted(cfg, logs) ==> x in logs
    decreases |logs|
  {
    if |logs| > 0 {
      KeptHeld(cfg, logs[..|logs| - 1], x);
    }
  }

  /** `x` is the log `y`, except that its block index may have been removed. */
  ghost predicate SameEmission(x: Change, y: Change) {
    y.body.Log? && x.body.Log? && x.ordinal == y.ordinal && x.body.index == y.body.index && x.body.log == y.body.log
  }

  lemma SettledLogs(cfg: Config, arranged: seq<CallRec>, x: Change) returns (y: Change)
    requires SettledCalls(cfg, arranged).Ok? && HasLog(SettledCalls(cfg, arranged).value, x)
    ensures HasLog(arranged, y) && (y.body.Log? ==> SameEmission(x, y))
  {
    hide ClearLog;
    PropagateMarks(arranged, []);
    var marked := Propagate(arranged, []).value;
    var settled := ClearReverted(cfg, marked);
    var i :| 0 <= i < |settled| && x in settled[i].lists.logs;
    var k :| 0 <= k < |settled[i].lists.logs| && settled[i].lists.logs[k] == x;
    assert marked[i] == arranged[i].(stateReverted := marked[i].stateReverted);
    y := arranged[i].lists.logs[k];
    ClearKeepsEmission(cfg, y);
    assert y in arranged[i].lists.logs;
    assert x == y || x == ClearLog(cfg)(y);
  }

  lemma ClearKeepsEmission(cfg: Config, y: Change)
    ensures y.body.Log? ==> SameEmission(ClearLog(cfg)(y), y)
  {
  }

  lemma ArrangedLogs(calls: seq<CallRec>, leftover: Lists, recorded: seq<Recorded>, x: Change)
    requires |calls| > 0 && HasLog(ArrangedCalls(calls, leftover, recorded), x)
    ensures HasLog(calls, x) || x in leftover.logs
  {
    hide Attach, Concat;
    SortedElements(CallIndex, calls);
    var sorted := SortCalls(calls);
    var rooted := sorted[0 := sorted[0].(lists := Concat(sorted[0].lists, leftover))];
    AttachKeeps(rooted, recorded);
    var arranged := ArrangedCalls(calls, leftover, recorded);
    var i :| 0 <= i < |arranged| && x in arranged[i].lists.logs;
    assert x in rooted[i].lists.logs;
    ConcatLogs(sorted[0].lists, leftover, x);
    var k :| 0 <= k < |calls| && calls[k] == sorted[i];
  }

  lemma ConcatLogs(a: Lists, b: Lists, x: Change)
    ensures x in Concat(a, b).logs ==> x in a.logs || x in b.logs
  {
  }

  /** Every surviving log of the completed calls is a log that the transaction under way held: the same ordinal,
      index, address, topics and data. */
  lemma SurvivorWasHeld(cfg: Config, w: Work, ord: nat, x: Change) returns (y: Change)
    requires w.trx.Some? && |w.trx.value.calls| > 0 && Chronological(w, ord)
    requires SettledCalls(cfg, ArrangedCalls(w.trx.value.calls, w.deferred, w.preimages)).Ok?
    requires x in Surviving(cfg, SettledCalls(cfg, ArrangedCalls(w.trx.value.calls, w.deferred, w.preimages)).value)
    ensures Holds(w, y) && SameEmission(x, y)
  {
    hide SettledCalls, ArrangedCalls, Surviving, HasLog, SameEmission;
    var arranged := ArrangedCalls(w.trx.value.calls, w.deferred, w.preimages);
    SurvivorHeld(cfg, SettledCalls(cfg, arranged).value, x);
    y := SettledLogs(cfg, arranged, x);
    ArrangedLogs(w.trx.value.calls, w.deferred, w.preimages, y);
  }

  /** The surviving call logs of completed calls, in ordinal order. */
  function Emitted(cfg: Config, calls: seq<CallRec>): seq<Change> { Sort(ChangeOrdinal, Surviving(cfg, calls)) }

  /** Emission order is strict in the ordinals and in the log indexes, and it is the only order the sort
      can produce. */
  ghost predicate InEmissionOrder(cfg: Config, calls: seq<CallRec>) {
    var sorted := Emitted(cfg, calls);
    && multiset(sorted) == multiset(Surviving(cfg, calls))
    && StrictlyOrdered(ChangeOrdinal, sorted)
    && (forall i :: 0 <= i < |sorted| ==> sorted[i].body.Log?)
    && forall i, j :: 0 <= i < j < |sorted| ==> sorted[i].body.index < sorted[j].body.index
  }

  lemma SettledInOrder(cfg: Config, w: Work, ord: nat)
    requires w.trx.Some? && |w.trx.value.calls| > 0 && Chronological(w, ord) && Once(w, ord)
    requires SettledCalls(cfg, ArrangedCalls(w.trx.value.calls, w.deferred, w.preimages)).Ok?
    ensures InEmissionOrder(cfg, SettledCalls(cfg, ArrangedCalls(w.trx.value.calls, w.deferred, w.preimages)).value)
  {
    hide SettledCalls, ArrangedCalls, Surviving, Holds, CountTx, CountCalls, CountChanges, Sort;
    var arranged := ArrangedCalls(w.trx.value.calls, w.deferred, w.preimages);
    var calls := SettledCalls(cfg, arranged).value;
    var s := Surviving(cfg, calls);
    forall o: nat | o >= 1 ensures CountChanges(s, o) <= 1 {
      CountSurviving(cfg, calls, o);
      SettledCounts(cfg, arranged, o);
      ArrangedCounts(w.trx.value.calls, w.deferred, w.preimages, o);
      CallsWithin(w, o);
      assert CountWork(w, o) <= One(o <= ord);
    }
    forall i | 0 <= i < |s| ensures s[i].ordinal >= 1 && s[i].body.Log? {
      var y := SurvivorWasHeld(cfg, w, ord, s[i]);
    }
    SortedStrictly(s);
    SortedElements(ChangeOrdinal, s);
    var sorted := Sort(ChangeOrdinal, s);
    forall i, j | 0 <= i < j < |sorted|
      ensures sorted[i].body.Log? && sorted[j].body.Log? && sorted[i].body.index < sorted[j].body.index
    {
      assert ChangeOrdinal(sorted[i]) < ChangeOrdinal(sorted[j]);
      var a := SurvivorWasHeld(cfg, w, ord, sorted[i]);
      var b := SurvivorWasHeld(cfg, w, ord, sorted[j]);
      assert Earlier(a, b);
    }
  }

  lemma CallsWithin(w: Work, o: nat)
    requires w.trx.Some?
    ensures CountCalls(w.trx.value.calls, o) + CountLists(w.deferred, o) <= CountWork(w, o)
  {
  }

  // ---------------------------------------------------------------- the receipt

  /** Receipt log `r` is paired with call log `c`. */
  predicate Paired(c: Change, r: ReceiptLog) {
    c.body.Log? && r.ordinal == c.ordinal && r.index == c.body.index && r.blockIndex == c.body.blockIndex
  }

  /** The receipt's logs, `given` by the chain, are the surviving call logs in emission order: as many, with
      equal ordinal, index and block index, keeping address, topics and data as given. */
  ghost predicate ReceiptAgrees(cfg: Config, t: TxTrace, given: Receipt) {
    var sorted := Emitted(cfg, t.calls);
    && t.receipt.Some? && |t.receipt.value.logs| == |sorted| == |given.logs|
    && (forall i :: 0 <= i < |sorted| ==> Paired(sorted[i], t.receipt.value.logs[i]))
    && forall i :: 0 <= i < |sorted| ==> t.receipt.value.logs[i].log == given.logs[i].0
                                         && t.receipt.value.logs[i].blockIndex == given.logs[i].1
  }

  /** Logs of reverted calls, other than never-reverted ones, have block index zero. */
  ghost predicate RevertedCleared(cfg: Config, calls: seq<CallRec>) {
    forall i, k :: 0 <= i < |calls| && 0 <= k < |calls[i].lists.logs| && calls[i].stateReverted
      && calls[i].lists.logs[k].body.Log? && !NeverReverted(cfg, calls[i].lists.logs[k])
      ==> calls[i].lists.logs[k].body.blockIndex == 0
  }

  lemma ClearedAll(cfg: Config, calls: seq<CallRec>)
    ensures RevertedCleared(cfg, ClearReverted(cfg, calls))
  {
  }

  lemma SettledCleared(cfg: Config, arranged: seq<CallRec>)
    requires SettledCalls(cfg, arranged).Ok?
    ensures RevertedCleared(cfg, SettledCalls(cfg, arranged).value)
  {
    hide Propagate, ClearReverted, RevertedCleared;
    ClearedAll(cfg, Propagate(arranged, []).value);
  }

  /** The chain's logs match the emitted ones: as many, with the same block indexes. */
  ghost predicate LogsMatch(sorted: seq<Change>, given: seq<(LogData, nat)>) {
    |sorted| == |given| && forall i :: 0 <= i < |given| ==>
      sorted[i].body.Log? && sorted[i].body.blockIndex == given[i].1
  }

  function GivenLogs(receipt: Option<Receipt>): seq<(LogData, nat)> {
    if receipt.Some? then receipt.value.logs else []
  }

  ghost predicate PairedAll(sorted: seq<Change>, logs: seq<ReceiptLog>, given: seq<(LogData, nat)>) {
    |logs| == |given| == |sorted| && forall i :: 0 <= i < |given| ==>
      Paired(sorted[i], logs[i]) && logs[i].log == given[i].0
  }

  lemma PairingPanics(cfg: Config, trx: TxTrace, calls: seq<CallRec>, receipt: Option<Receipt>)
    requires trx.receipt.None?
    ensures var r := PairLogs(cfg, calls, ReceiptBefore(trx, receipt));
      && (r.Ok? <==> LogsMatch(Emitted(cfg, calls), GivenLogs(receipt)))
      && (r.Ok? ==> r.value.Some? == receipt.Some?)
      && (r.Ok? && receipt.Some? ==> PairedAll(Emitted(cfg, calls), r.value.value.logs, receipt.value.logs))
  {
    hide Surviving, Sort;
    var sorted, logs := Emitted(cfg, calls), LogsOf(ReceiptBefore(trx, receipt));
    assert |logs| == |GivenLogs(receipt)| && forall i :: 0 <= i < |logs| ==>
      logs[i].blockIndex == GivenLogs(receipt)[i].1;
    if |sorted| == |logs|
       && exists i :: 0 <= i < |logs| && (!sorted[i].body.Log? || sorted[i].body.blockIndex != logs[i].blockIndex) {
      var i :| 0 <= i < |logs| && (!sorted[i].body.Log? || sorted[i].body.blockIndex != logs[i].blockIndex);
      assert !(sorted[i].body.Log? && sorted[i].body.blockIndex == GivenLogs(receipt)[i].1);
    }
  }

  /** What the receipt and the logs of a completed transaction satisfy. */
  ghost predicate LogsSettled(cfg: Config, t: TxTrace, receipt: Option<Receipt>) {
    |t.calls| > 0 ==>
      && InEmissionOrder(cfg, t.calls) && RevertedCleared(cfg, t.calls)
      && LogsMatch(Emitted(cfg, t.calls), GivenLogs(receipt))
      && (receipt.Some? ==> ReceiptAgrees(cfg, t, receipt.value))
  }

  lemma CompleteSettles(cfg: Config, w: Work, ord: nat, receipt: Option<Receipt>, end: nat)
    requires w.trx.Some? && w.trx.value.receipt.None? && Chronological(w, ord) && Once(w, ord)
    ensures var r := Complete(cfg, w.trx.value, w.deferred, w.preimages, receipt, end);
      r.Ok? ==> LogsSettled(cfg, r.value, receipt)
  {
    hide ArrangedCalls, SettledCalls, PairLogs, CheckedAuths, ReceiptBefore, InEmissionOrder, RevertedCleared;
    hide Emitted, Chronological, Once;
    var trx := w.trx.value;
    if |trx.calls| > 0 {
      var arranged := ArrangedCalls(trx.calls, w.deferred, w.preimages);
      if SettledCalls(cfg, arranged).Ok? {
        SettledInOrder(cfg, w, ord);
        SettledCleared(cfg, arranged);
        PairingPanics(cfg, trx, SettledCalls(cfg, arranged).value, receipt);
      }
    }
  }

  lemma FirstWorkFacts(st: Stream, base: nat)
    ensures Chronological(FirstWork(st, base), base + 1) && Once(FirstWork(st, base), base + 1)
            && WorkIn(FirstWork(st, base), base + 1)
  {
    forall o: nat | o >= 1 ensures CountWork(FirstWork(st, base), o) == One(o == base + 1) {
    }
  }

  /** Receipt and log agreement. Whenever a transaction traced from any ordinal completes, whatever its body,
      its surviving logs are strictly ordered by ordinal and by index alike, reverted logs have lost their
      block index, and the receipt's logs are those logs one for one. */
  lemma ReceiptsAgree(cfg: Config, prague: bool, st: Stream, base: nat)
    ensures var t := Trace(cfg, prague, st, base);
      t.Ok? && t.value.trx.Some? ==> LogsSettled(cfg, t.value.trx.value, st.receipt)
  {
    hide Complete, LogsSettled, Chronological, Once, RunWork, WorkIn;
    var ctx, w0 := Ctx(true, prague, false, false), FirstWork(st, base);
    FirstWorkFacts(st, base);
    var r := RunWork(ctx, w0, base + 1, st.body);
    if r.Ok? {
      RunChronological(ctx, w0, base + 1, st.body);
      RunOnce(ctx, w0, base + 1, st.body);
      RunIn(ctx, w0, base + 1, st.body);
      if r.value.0.trx.Some? {
        NoReceiptYet(r.value.0, r.value.1);
        CompleteSettles(cfg, r.value.0, r.value.1, st.receipt, r.value.1 + 1);
      }
    }
  }

  lemma NoReceiptYet(w: Work, ord: nat)
    requires WorkIn(w, ord) && w.trx.Some?
    ensures w.trx.value.receipt.None?
  {
  }
}
