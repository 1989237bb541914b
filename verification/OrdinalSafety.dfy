/** Ordinals over whole runs: transactions, system calls, block-level changes, flash snapshots and
    restores on the coordinator, isolated tracers and commits, in any order. Positive ordinals never repeat
    and never exceed the counter; without the listed gap cases they are exactly 1..counter. Ordinal zero is
    recorded in a block exactly when a transaction is ended while a system call is running. */
module OrdinalSafety {
  import opened Bytes
  import opened Wrappers
  import opened Model
  import opened Completion
  import opened Machine
  import opened Relabel
  import opened Ranges
  import opened World
  import opened Steps
  import opened Counts

  // ---------------------------------------------------------------- well-formed runs

  /** The coordinator's events come in a sensible order: a block starts when none is open, and calls
      are entered inside a transaction. */
  predicate Orderly(s: State, e: Event) {
    && (e.BlockStart? ==> s.block.None?)
    && (e.Tx? && e.e.Enter? ==> s.work.trx.Some?)
  }

  predicate IsCompleted(i: State) { i.work.trx.Some? && i.work.trx.value.endOrdinal > 0 }

  /** An isolated tracer traces one transaction, without system calls, and after its end gets nothing but a reset. */
  predicate OrderlyIso(i: State, e: Event) {
    && (IsCompleted(i) ==> e.TxReset?)
    && (e.TxStart? || e.TxEnd? || e.TxReset? || (e.Tx? && i.work.trx.Some?))
  }

  predicate OrderlyAction(w: World, a: Action) {
    match a
    case Coord(e) => Orderly(w.coord, e)
    case OnIso(id, e) => id in w.iso && OrderlyIso(w.iso[id], e)
    case _ => true
  }

  ghost predicate OrderlyRun(cfg: Config, w: World, actions: seq<Action>)
    decreases |actions|
  {
    |actions| > 0 ==>
      && OrderlyAction(w, actions[0])
      && var r := StepWorld(cfg, w, actions[0]); r.Ok? ==> OrderlyRun(cfg, r.value, actions[1..])
  }

  // ---------------------------------------------------------------- the invariants

  ghost predicate TidyWork(w: Work) {
    && AllOpen(w.stack)
    && (w.trx.None? ==> |w.stack| == 0 && w.deferred == NO_CHANGES)
    && (w.trx.Some? ==> w.trx.value.endOrdinal == 0)
  }

  ghost predicate Tidy(s: State) {
    && !s.isolated
    && (s.block.None? ==> s.ordinal == 0 && s.saved.None? && s.work.trx.None?)
    && TidyWork(s.work) && (s.saved.Some? ==> TidyWork(s.saved.value))
    && (s.inSystemCall ==> s.work.trx.Some? && s.work.trx.value.beginOrdinal == 0)
  }

  /** What is under way lies within the counter; only the stand-in transaction of a system call has no begin
      ordinal. */
  ghost predicate InRange(s: State) {
    && WorkIn(s.work, s.ordinal) && (s.work.trx.Some? && !s.inSystemCall ==> s.work.trx.value.beginOrdinal >= 1)
    && (s.saved.Some? ==> WorkIn(s.saved.value, s.ordinal) && HasBegun(s.saved.value))
  }

  predicate HasBegun(w: Work) { w.trx.Some? && w.trx.value.beginOrdinal >= 1 }

  /** `count` occurrences of ordinal `o` are right for a counter at `hi`: at most one, and only within
      1..counter; exactly one there when there are no gaps. */
  predicate Right(gapless: bool, count: nat, o: nat, hi: nat) {
    count <= One(1 <= o <= hi) && (gapless ==> count == One(1 <= o <= hi))
  }

  ghost predicate Safe(gapless: bool, s: State) {
    forall o: nat :: o >= 1 ==> Right(gapless, CountState(s, o), o, s.ordinal)
  }

  ghost predicate SnapshotSafe(gapless: bool, s: Option<Snapshot>) {
    s.Some? ==> forall o: nat :: o >= 1 ==> Right(gapless, CountSnapshot(s.value, o), o, s.value.ordinal)
  }

  /** The positive ordinals of a block are pairwise distinct and within 1..hi, and all of them when gapless. */
  ghost predicate BlockRight(gapless: bool, b: Block, hi: nat) {
    forall o: nat :: o >= 1 ==> Right(gapless, CountBlock(b, o), o, hi)
  }

  /** Each emitted block is right for the counter it was emitted at. */
  ghost predicate OutputSafe(gapless: bool, output: seq<Output>, counters: seq<nat>) {
    |output| == |counters| && forall k :: 0 <= k < |output| ==> BlockRight(gapless, output[k].block, counters[k])
  }

  ghost predicate Invariant(gapless: bool, s: State, counters: seq<nat>) {
    && Tidy(s) && InRange(s) && Safe(gapless, s) && SnapshotSafe(gapless, s.snapshot)
    && OutputSafe(gapless, s.output, counters)
    && (gapless && s.saved.Some? ==> s.inSystemCall)
  }

  /** No block records ordinal zero: not the open one, not the snapshot, not an emitted one. */
  ghost predicate ZeroFree(s: State) {
    && (s.block.Some? ==> CountBlock(s.block.value, 0) == 0)
    && (s.snapshot.Some? ==> CountSnapshot(s.snapshot.value, 0) == 0)
    && forall k :: 0 <= k < |s.output| ==> CountBlock(s.output[k].block, 0) == 0
  }

  /** A transaction is ended, and not dropped, while a system call is running. */
  predicate EndsInSystemCall(cfg: Config, s: State, e: Event) {
    e.TxEnd? && s.inSystemCall && !(e.receipt.None? && cfg.dropWithoutReceipt)
  }

  /** The cases in which used ordinals are lost: a dropped transaction, deferred changes without a root call,
      calls still open at the end, a transaction ended from inside a system call, and a snapshot taken
      inside a transaction. */
  predicate NoLoss(cfg: Config, s: State, e: Event) {
    match e
    case TxEnd(receipt) => KeepsAll(cfg, s, receipt)
    case SysEnd => SysKeepsAll(s)
    case TakeSnapshot => s.flash.Some? ==> s.work.trx.None? && s.saved.None?
    case _ => true
  }

  // ---------------------------------------------------------------- what each hook does to the counts

  lemma RestoredCounts(info: BlockInfo, snap: Snapshot, o: nat)
    ensures CountBlock(Restored(NewBlock(info), snap), o) == CountSnapshot(snap, o)
  {
    assert [] + snap.txs == snap.txs && [] + snap.systemCalls == snap.systemCalls;
    assert [] + snap.balanceChanges == snap.balanceChanges && [] + snap.codeChanges == snap.codeChanges;
  }

  lemma NoWork(w: Work, o: nat)
    requires TidyWork(w) && w.trx.None?
    ensures CountWork(w, o) == 0
  {
  }

  lemma BlockStartCounts(s: State, info: BlockInfo, prague: bool, flash: Option<Flash>, finalized: Option<nat>, o: nat)
    requires Tidy(s) && s.block.None? && StepBlockStart(s, info, prague, flash, finalized).Ok?
    ensures var s1 := StepBlockStart(s, info, prague, flash, finalized).value;
      && (s1.snapshot.None? || s1.snapshot == s.snapshot)
      && ((s1.ordinal == 0 && CountState(s1, o) == 0)
          || (s1.snapshot.Some? && s1.ordinal == s1.snapshot.value.ordinal
              && CountState(s1, o) == CountSnapshot(s1.snapshot.value, o)))
  {
    hide Restored, CountWork, CountSnapshot, StepBlockStart;
    NoWork(s.work, o);
    BlockStartCases(s, info, prague, flash, finalized);
    var s1 := StepBlockStart(s, info, prague, flash, finalized).value;
    if s1.snapshot.Some? {
      RestoredCounts(info, s1.snapshot.value, o);
    }
  }

  lemma TxStartCounts(s: State, info: TxInfo, signers: seq<(Bytes, nat)>, reader: bool, o: nat)
    requires Tidy(s) && StepTxStart(s, info, signers, reader).Ok? && o >= 1
    ensures var s1 := StepTxStart(s, info, signers, reader).value;
      Tidy(s1) && s1.ordinal == s.ordinal + 1 && CountState(s1, o) == CountState(s, o) + One(o == s1.ordinal)
  {
    hide CountBlock, AuthsOf, CountLists;
    CountNothing(o);
  }

  /** Nothing is lost at the end of a transaction: it has a receipt or need not have one, no call is open,
      and deferred changes have a root call to go to. */
  predicate KeepsAll(cfg: Config, s: State, receipt: Option<Receipt>) {
    && !(receipt.None? && cfg.dropWithoutReceipt) && |s.work.stack| == 0 && !s.inSystemCall
    && (s.work.trx.Some? && |s.work.trx.value.calls| == 0 ==> s.work.deferred == NO_CHANGES)
  }

  lemma TxEndCounts(cfg: Config, s: State, receipt: Option<Receipt>, o: nat)
    requires Tidy(s) && StepTxEnd(cfg, s, receipt).Ok? && o >= 1
    ensures var s1 := StepTxEnd(cfg, s, receipt).value;
      && s1.ordinal >= s.ordinal && Tidy(s1) && s1.snapshot == s.snapshot && s1.output == s.output
      && CountState(s1, o) <= CountState(s, o) + One(s1.ordinal == s.ordinal + 1 == o)
      && (KeepsAll(cfg, s, receipt) ==> CountState(s1, o) == CountState(s, o) + One(o == s1.ordinal)
                                        && s1.ordinal == s.ordinal + 1)
  {
    hide Complete, CountTx, CountLists, CountCalls, CountTxs;
    CountNothing(o);
    assert CountCalls([], o) == 0 by { NoCalls(o); }
    if !(receipt.None? && cfg.dropWithoutReceipt) {
      var trx := s.work.trx.value;
      CompleteCounts(cfg, trx, s.work.deferred, s.work.preimages, receipt, s.ordinal + 1, o);
      var done := Complete(cfg, trx, s.work.deferred, s.work.preimages, receipt, s.ordinal + 1).value;
      CountAddTx(s.block.value.txs, done, o);
    }
  }

  lemma NoCalls(o: nat)
    ensures CountCalls([], o) == 0
  {
  }

  lemma CountAddTx(txs: seq<TxTrace>, t: TxTrace, o: nat)
    ensures CountTxs(txs + [t], o) == CountTxs(txs, o) + CountTx(t, o)
  {
    assert (txs + [t])[..|txs|] == txs;
  }

  lemma SysStartCounts(s: State, o: nat)
    requires Tidy(s) && StepSysStart(s).Ok? && o >= 1
    ensures var s1 := StepSysStart(s).value;
      && Tidy(s1) && s1.ordinal == s.ordinal && s1.snapshot == s.snapshot && s1.output == s.output
      && CountState(s1, o) <= CountState(s, o)
      && (s.saved.None? || s.work.trx.None? ==> CountState(s1, o) == CountState(s, o))
  {
    hide CountBlock, CountLists;
    CountNothing(o);
  }

  /** Nothing is lost at the end of a system call. */
  predicate SysKeepsAll(s: State) { |s.work.stack| == 0 && s.work.deferred == NO_CHANGES }

  lemma SysEndCounts(s: State, o: nat)
    requires Tidy(s) && StepSysEnd(s).Ok? && o >= 1
    ensures var s1 := StepSysEnd(s).value;
      && Tidy(s1) && s1.ordinal == s.ordinal && s1.snapshot == s.snapshot && s1.output == s.output
      && CountState(s1, o) <= CountState(s, o)
      && (SysKeepsAll(s) ==> CountState(s1, o) == CountState(s, o))
  {
    hide CountLists, CountCalls, Attach, CountTxs, CountChanges;
    CountNothing(o);
    NoCalls(o);
    var calls := s.work.trx.value.calls;
    AttachCounts(calls, s.work.preimages, o);
    CountJoinCalls(s.block.value.systemCalls, Attach(calls, s.work.preimages), o);
  }

  lemma TxCounts(s: State, e: TxEvent, o: nat)
    requires Tidy(s) && Orderly(s, Tx(e)) && StepTx(s, e).Ok? && o >= 1
    ensures var s1 := StepTx(s, e).value;
      && s.ordinal <= s1.ordinal <= s.ordinal + 1 && Tidy(s1) && s1.snapshot == s.snapshot && s1.output == s.output
      && CountState(s1, o) == CountState(s, o) + One(s1.ordinal == s.ordinal + 1 == o)
  {
    hide StepWork, CountWork, CountTxs, CountCalls;
    if BlockLevel(s, e) {
      var c := Change(s.ordinal + 1, e.change);
      CountPush(s.block.value.balanceChanges, c, o);
      CountPush(s.block.value.codeChanges, c, o);
    } else {
      EventCounts(CtxOf(s), s.work, s.ordinal, e, o);
      EventTidy(CtxOf(s), s.work, s.ordinal, e);
    }
  }

  lemma EventTidy(ctx: Ctx, w: Work, ord: nat, e: TxEvent)
    requires TidyWork(w) && StepWork(ctx, w, ord, e).Ok? && (e.Enter? ==> w.trx.Some?)
    ensures var r := StepWork(ctx, w, ord, e).value;
      (w.trx.Some? ==> r.0.trx.Some? && r.0.trx.value.endOrdinal == 0
                       && r.0.trx.value.beginOrdinal == w.trx.value.beginOrdinal)
      && (w.trx.None? ==> r.0.trx.None? && |r.0.stack| == 0 && r.0.deferred == NO_CHANGES && r.1 == ord)
  {
  }

  // ---------------------------------------------------------------- the coordinator

  /** The counters of emitted blocks after one event. */
  function CountersAfter(s: State, e: Event, counters: seq<nat>): seq<nat> {
    if e.BlockEnd? && !e.failed then counters + [s.ordinal] else counters
  }

  lemma BlockEndSafe(gapless: bool, s: State, counters: seq<nat>, failed: bool)
    requires Invariant(gapless, s, counters) && StepBlockEnd(s, failed).Ok?
    ensures Invariant(gapless, StepBlockEnd(s, failed).value, CountersAfter(s, BlockEnd(failed), counters))
  {
    hide CountTxs, CountCalls, CountChanges, CountWork, WorkIn;
    var s1 := StepBlockEnd(s, failed).value;
    NothingUnderWay(0);
    forall o: nat | o >= 1 ensures CountState(s1, o) == 0 {
      NoWork(FRESH, o);
    }
    if !failed {
      forall o: nat | o >= 1 ensures Right(gapless, CountBlock(s.block.value, o), o, s.ordinal) {
        assert Right(gapless, CountState(s, o), o, s.ordinal);
        NoWork(s.work, o);
      }
      assert BlockRight(gapless, s.block.value, s.ordinal);
    }
  }

  lemma NothingUnderWay(hi: nat)
    ensures WorkIn(FRESH, hi)
  {
    EmptyIn(hi);
  }

  lemma SnapshotStepSafe(gapless: bool, s: State, counters: seq<nat>)
    requires Invariant(gapless, s, counters) && StepSnapshot(s).Ok?
    requires gapless && s.flash.Some? ==> s.work.trx.None? && s.saved.None?
    ensures Invariant(gapless, StepSnapshot(s).value, counters)
  {
    hide WorkIn, CountTxs, CountCalls, CountChanges, CountWork;
    var s1 := StepSnapshot(s).value;
    forall o: nat | o >= 1
      ensures CountState(s1, o) == CountState(s, o)
      ensures s.flash.Some? ==> Right(gapless, CountSnapshot(s1.snapshot.value, o), o, s.ordinal)
    {
      assert Right(gapless, CountState(s, o), o, s.ordinal);
      if s.work.trx.None? {
        NoWork(s.work, o);
      }
    }
  }

  lemma BlockStartSafe(gapless: bool, s: State, counters: seq<nat>, info: BlockInfo, prague: bool, flash: Option<Flash>,
                       finalized: Option<nat>)
    requires Invariant(gapless, s, counters) && s.block.None? && StepBlockStart(s, info, prague, flash, finalized).Ok?
    ensures Invariant(gapless, StepBlockStart(s, info, prague, flash, finalized).value, counters)
  {
    hide CountState, CountSnapshot, BlockRight, Restored, TidyWork, WorkIn;
    var s1 := StepBlockStart(s, info, prague, flash, finalized).value;
    WorkInGrows(s.work, s.ordinal, s1.ordinal);
    forall o: nat | o >= 1 ensures Right(gapless, CountState(s1, o), o, s1.ordinal) {
      BlockStartCounts(s, info, prague, flash, finalized, o);
    }
  }

  /** One coordinator event keeps ordinals distinct and within the counter, and gapless when nothing is lost. It
      brings ordinal zero into a block exactly when it ends a transaction inside a system call. */
  lemma CoordinatorSafe(cfg: Config, gapless: bool, s: State, counters: seq<nat>, e: Event)
    requires Invariant(gapless, s, counters) && Orderly(s, e) && Step(cfg, s, e).Ok? && (gapless ==> NoLoss(cfg, s, e))
    ensures Invariant(gapless, Step(cfg, s, e).value, CountersAfter(s, e, counters))
    ensures ZeroFree(s) ==> (ZeroFree(Step(cfg, s, e).value) <==> !EndsInSystemCall(cfg, s, e))
  {
    hide Step, Invariant, ZeroFree, Orderly, NoLoss, EndsInSystemCall;
    KeepsInvariant(cfg, gapless, s, counters, e);
    if ZeroFree(s) {
      ZeroExactly(cfg, gapless, s, counters, e);
    }
  }

  lemma KeepsInvariant(cfg: Config, gapless: bool, s: State, counters: seq<nat>, e: Event)
    requires Invariant(gapless, s, counters) && Orderly(s, e) && Step(cfg, s, e).Ok? && (gapless ==> NoLoss(cfg, s, e))
    ensures Invariant(gapless, Step(cfg, s, e).value, CountersAfter(s, e, counters))
  {
    hide StepBlockStart, StepBlockEnd, StepTxStart, StepTxEnd, StepSysStart, StepSysEnd, StepSnapshot, StepTx;
    hide CountState, CountSnapshot, BlockRight, TidyWork, InRange, KeepsAll, SysKeepsAll;
    match e
    case BlockStart(info, prague, flash, finalized) =>
      BlockStartSafe(gapless, s, counters, info, prague, flash, finalized);
    case BlockEnd(failed) => BlockEndSafe(gapless, s, counters, failed);
    case TakeSnapshot => SnapshotStepSafe(gapless, s, counters);
    case TxReset => {}
    case _ =>
      var s1 := Step(cfg, s, e).value;
      forall o: nat | o >= 1 ensures Right(gapless, CountState(s1, o), o, s1.ordinal) {
        OtherEvents(cfg, s, e, o);
        assert Right(gapless, CountState(s, o), o, s.ordinal);
      }
      OtherEvents(cfg, s, e, 1);
      OtherRange(cfg, s, e);
  }

  /** What is under way stays in range at every event inside a block. */
  lemma OtherRange(cfg: Config, s: State, e: Event)
    requires Tidy(s) && InRange(s) && Orderly(s, e) && Step(cfg, s, e).Ok?
    requires e.TxStart? || e.TxEnd? || e.SysStart? || e.SysEnd? || e.Tx?
    ensures InRange(Step(cfg, s, e).value)
  {
    hide StepBlockStart, StepBlockEnd, StepTxStart, StepTxEnd, StepSysStart, StepSysEnd, StepSnapshot, StepTx, WorkIn;
    hide TidyWork;
    match e
    case TxStart(tx, signers, reader) => TxStartRange(s, tx, signers, reader);
    case TxEnd(receipt) => TxEndRange(cfg, s, receipt);
    case SysStart => SysStartRange(s);
    case SysEnd => SysEndRange(s);
    case Tx(e) => TxRange(s, e);
  }

  lemma SavedGrows(s: State, hi: nat)
    requires InRange(s) && s.ordinal <= hi
    ensures s.saved.Some? ==> WorkIn(s.saved.value, hi) && HasBegun(s.saved.value)
  {
    hide WorkIn;
    if s.saved.Some? {
      WorkInGrows(s.saved.value, s.ordinal, hi);
    }
  }

  lemma TxStartRange(s: State, info: TxInfo, signers: seq<(Bytes, nat)>, reader: bool)
    requires Tidy(s) && InRange(s) && StepTxStart(s, info, signers, reader).Ok?
    ensures InRange(StepTxStart(s, info, signers, reader).value)
  {
    hide AuthsOf, ListsIn;
    SavedGrows(s, s.ordinal + 1);
    WorkInGrows(s.work, s.ordinal, s.ordinal + 1);
  }

  lemma TxEndRange(cfg: Config, s: State, receipt: Option<Receipt>)
    requires Tidy(s) && InRange(s) && StepTxEnd(cfg, s, receipt).Ok?
    ensures InRange(StepTxEnd(cfg, s, receipt).value)
  {
    hide Complete, WorkIn, TidyWork;
    var s1 := StepTxEnd(cfg, s, receipt).value;
    SavedGrows(s, s1.ordinal);
    NothingUnderWay(s1.ordinal);
  }

  lemma SysStartRange(s: State)
    requires Tidy(s) && InRange(s) && StepSysStart(s).Ok?
    ensures InRange(StepSysStart(s).value)
  {
    hide ListsIn;
    NothingUnderWay(s.ordinal);
  }

  lemma SysEndRange(s: State)
    requires Tidy(s) && InRange(s) && StepSysEnd(s).Ok?
    ensures InRange(StepSysEnd(s).value)
  {
    hide Attach, WorkIn, TidyWork;
    NothingUnderWay(s.ordinal);
  }

  lemma TxRange(s: State, e: TxEvent)
    requires Tidy(s) && InRange(s) && Orderly(s, Tx(e)) && StepTx(s, e).Ok?
    ensures InRange(StepTx(s, e).value)
  {
    hide StepWork, WorkIn;
    var s1 := StepTx(s, e).value;
    if BlockLevel(s, e) {
      WorkInGrows(s.work, s.ordinal, s1.ordinal);
    } else {
      StepIn(CtxOf(s), s.work, s.ordinal, e);
      EventTidy(CtxOf(s), s.work, s.ordinal, e);
    }
    SavedGrows(s, s1.ordinal);
  }

  // ---------------------------------------------------------------- ordinal zero

  lemma TxNoZero(t: TxTrace, hi: nat)
    requires TxIn(t, hi)
    ensures CountTx(t, 0) == 0
  {
    NoZeroCalls(t.calls, hi);
  }

  lemma CompleteBegins(cfg: Config, trx: TxTrace, leftover: Lists, recorded: seq<Recorded>, receipt: Option<Receipt>,
                       end: nat)
    ensures var r := Complete(cfg, trx, leftover, recorded, receipt, end);
      r.Ok? ==> r.value.beginOrdinal == trx.beginOrdinal
  {
    hide SettledCalls, PairLogs, ArrangedCalls, CheckedAuths, ReceiptBefore;
  }

  /** The stand-in transaction of a system call has no begin ordinal: ended as a transaction, it brings zero in. */
  lemma TxEndZero(cfg: Config, s: State, receipt: Option<Receipt>)
    requires Tidy(s) && InRange(s) && ZeroFree(s) && StepTxEnd(cfg, s, receipt).Ok?
    ensures ZeroFree(StepTxEnd(cfg, s, receipt).value) <==> !EndsInSystemCall(cfg, s, TxEnd(receipt))
  {
    hide Complete, TidyWork, TxIn, CountTxs;
    if !(receipt.None? && cfg.dropWithoutReceipt) {
      var trx, w := s.work.trx.value, s.work;
      var done := Complete(cfg, trx, w.deferred, w.preimages, receipt, s.ordinal + 1).value;
      CompleteBegins(cfg, trx, w.deferred, w.preimages, receipt, s.ordinal + 1);
      CountAddTx(s.block.value.txs, done, 0);
      if !s.inSystemCall {
        CompleteIn(cfg, trx, w.deferred, w.preimages, receipt, s.ordinal);
        TxNoZero(done, s.ordinal + 1);
      }
    }
  }

  lemma SysEndZero(s: State)
    requires InRange(s) && ZeroFree(s) && StepSysEnd(s).Ok?
    ensures ZeroFree(StepSysEnd(s).value)
  {
    hide Attach, CountTxs, CountCalls, CountChanges, AllClosedIn;
    var calls := s.work.trx.value.calls;
    AttachIn(calls, s.work.preimages, s.ordinal);
    NoZeroCalls(Attach(calls, s.work.preimages), s.ordinal);
    CountJoinCalls(s.block.value.systemCalls, Attach(calls, s.work.preimages), 0);
  }

  lemma ChangeZero(b: Block, c: Change)
    requires c.ordinal > 0 && CountBlock(b, 0) == 0
    ensures CountBlock(AddBlockChange(b, c), 0) == 0
  {
    hide CountTxs, CountCalls;
    CountPush(b.balanceChanges, c, 0);
    CountPush(b.codeChanges, c, 0);
  }

  lemma TxZero(s: State, e: TxEvent)
    requires ZeroFree(s) && StepTx(s, e).Ok?
    ensures ZeroFree(StepTx(s, e).value)
  {
    hide StepWork, CountBlock, CountSnapshot, AddBlockChange;
    if BlockLevel(s, e) {
      ChangeZero(s.block.value, Change(s.ordinal + 1, e.change));
    }
  }

  lemma BlockStartZero(s: State, info: BlockInfo, prague: bool, flash: Option<Flash>, finalized: Option<nat>)
    requires ZeroFree(s) && StepBlockStart(s, info, prague, flash, finalized).Ok?
    ensures ZeroFree(StepBlockStart(s, info, prague, flash, finalized).value)
  {
    hide StepBlockStart, SnapshotRestored;
    BlockStartCases(s, info, prague, flash, finalized);
    RestoredZero(BlockOpened(s, info, prague, finalized), info);
    if flash.Some? {
      var snapshot := CheckedSnapshot(s.snapshot, flash.value, info.number).value;
      RestoredZero(BlockOpened(s.(snapshot := snapshot, flash := flash), info, prague, finalized), info);
    }
  }

  lemma RestoredZero(s: State, info: BlockInfo)
    requires s.block == Some(NewBlock(info)) && (s.snapshot.Some? ==> CountSnapshot(s.snapshot.value, 0) == 0)
    requires forall k :: 0 <= k < |s.output| ==> CountBlock(s.output[k].block, 0) == 0
    ensures ZeroFree(SnapshotRestored(s))
  {
    hide Restored, CountSnapshot;
    if s.snapshot.Some? {
      RestoredCounts(info, s.snapshot.value, 0);
    }
  }

  lemma BlockEndZero(s: State, failed: bool)
    requires ZeroFree(s) && StepBlockEnd(s, failed).Ok?
    ensures ZeroFree(StepBlockEnd(s, failed).value)
  {
    hide CountBlock, CountSnapshot;
  }

  lemma SnapshotZero(s: State)
    requires ZeroFree(s) && StepSnapshot(s).Ok?
    ensures ZeroFree(StepSnapshot(s).value)
  {
    hide CountTxs, CountCalls, CountChanges;
  }

  lemma StartsZero(s: State)
    requires ZeroFree(s)
    ensures StepSysStart(s).Ok? ==> ZeroFree(StepSysStart(s).value)
    ensures forall info, signers, reader :: StepTxStart(s, info, signers, reader).Ok? ==>
      ZeroFree(StepTxStart(s, info, signers, reader).value)
  {
    hide CountBlock, CountSnapshot, AuthsOf;
  }

  lemma ZeroExactly(cfg: Config, gapless: bool, s: State, counters: seq<nat>, e: Event)
    requires Invariant(gapless, s, counters) && ZeroFree(s) && Step(cfg, s, e).Ok?
    ensures ZeroFree(Step(cfg, s, e).value) <==> !EndsInSystemCall(cfg, s, e)
  {
    hide StepBlockStart, StepBlockEnd, StepTxStart, StepTxEnd, StepSysStart, StepSysEnd, StepSnapshot, StepTx;
    hide Tidy, InRange, Safe, SnapshotSafe, OutputSafe, ZeroFree;
    assert !s.isolated by { NotIsolated(s); }
    match e
    case BlockStart(info, prague, flash, finalized) => BlockStartZero(s, info, prague, flash, finalized);
    case BlockEnd(failed) => BlockEndZero(s, failed);
    case TxStart(tx, signers, reader) => StartsZero(s);
    case TxEnd(receipt) => TxEndZero(cfg, s, receipt);
    case TxReset => {}
    case SysStart => StartsZero(s);
    case SysEnd => SysEndZero(s);
    case TakeSnapshot => SnapshotZero(s);
    case Tx(e) => TxZero(s, e);
  }

  lemma NotIsolated(s: State)
    requires Tidy(s)
    ensures !s.isolated
  {
  }

  ghost predicate OtherCounts(cfg: Config, s: State, e: Event, o: nat)
    requires Step(cfg, s, e).Ok?
  {
    var s1 := Step(cfg, s, e).value;
    && s.ordinal <= s1.ordinal && Tidy(s1) && s1.snapshot == s.snapshot && s1.output == s.output
    && CountState(s1, o) <= CountState(s, o) + One(s1.ordinal == s.ordinal + 1 == o)
    && ((s.saved.Some? ==> s.inSystemCall) && NoLoss(cfg, s, e) ==>
         && s1.ordinal <= s.ordinal + 1 && (s1.saved.Some? ==> s1.inSystemCall)
         && CountState(s1, o) == CountState(s, o) + One(s1.ordinal == s.ordinal + 1 == o))
  }

  lemma SavedInSystemCall(cfg: Config, s: State, e: Event)
    requires Step(cfg, s, e).Ok? && (s.saved.Some? ==> s.inSystemCall) && NoLoss(cfg, s, e)
    requires e.TxStart? || e.TxEnd? || e.SysStart? || e.SysEnd? || e.Tx?
    ensures var s1 := Step(cfg, s, e).value; s1.saved.Some? ==> s1.inSystemCall
  {
    hide Complete, StepWork, StepBlockStart, StepBlockEnd, StepSnapshot, Attach, AuthsOf;
  }

  lemma OtherEvents(cfg: Config, s: State, e: Event, o: nat)
    requires Tidy(s) && Orderly(s, e) && Step(cfg, s, e).Ok? && o >= 1
    requires e.TxStart? || e.TxEnd? || e.SysStart? || e.SysEnd? || e.Tx?
    ensures OtherCounts(cfg, s, e, o)
  {
    hide StepBlockStart, StepBlockEnd, StepTxEnd, StepSysEnd, StepSnapshot, StepTx, CountState, TidyWork;
    if (s.saved.Some? ==> s.inSystemCall) && NoLoss(cfg, s, e) {
      SavedInSystemCall(cfg, s, e);
    }
    match e
    case TxStart(tx, signers, reader) => TxStartCounts(s, tx, signers, reader, o);
    case TxEnd(receipt) => TxEndCounts(cfg, s, receipt, o);
    case SysStart => SysStartCounts(s, o);
    case SysEnd => SysEndCounts(s, o);
    case Tx(e) => TxCounts(s, e, o);
  }

  // ---------------------------------------------------------------- isolated tracers

  /** Completed and no longer waiting: its transaction belongs to the block. */
  predicate IsCommitted(i: State) { IsCompleted(i) && !i.ended }

  ghost predicate IsoSafe(gapless: bool, i: State) {
    && i.isolated && i.saved.None? && !i.inSystemCall && (i.ended ==> IsCompleted(i))
    && (IsCommitted(i) || IsoOwnSafe(gapless, i))
  }

  ghost predicate IsoOwnSafe(gapless: bool, i: State) {
    && (forall o: nat :: o >= 1 ==> Right(gapless, CountWork(i.work, o), o, i.ordinal))
    && AllOpen(i.work.stack) && (i.work.trx.None? ==> |i.work.stack| == 0 && i.work.deferred == NO_CHANGES)
    && if IsCompleted(i) then i.work.trx.value.endOrdinal == i.ordinal && TxIn(i.work.trx.value, i.ordinal)
                              && (gapless ==> |i.work.stack| == 0 && i.work.deferred == NO_CHANGES)
       else WorkIn(i.work, i.ordinal) && (i.work.trx.Some? ==> i.work.trx.value.beginOrdinal >= 1)
  }

  /** An isolated transaction's end loses nothing. */
  predicate IsoNoLoss(i: State, e: Event) {
    e.TxEnd? && i.work.trx.Some? ==> |i.work.stack| == 0
                                     && (|i.work.trx.value.calls| == 0 ==> i.work.deferred == NO_CHANGES)
  }

  lemma SpawnSafe(gapless: bool, s: State)
    ensures IsoSafe(gapless, Spawned(s))
  {
    forall o: nat | o >= 1 ensures CountWork(FRESH, o) == 0 {
    }
  }

  lemma IsoStartSafe(gapless: bool, i: State, info: TxInfo, signers: seq<(Bytes, nat)>, reader: bool)
    requires IsoSafe(gapless, i) && StepTxStart(i, info, signers, reader).Ok?
    ensures IsoSafe(gapless, StepTxStart(i, info, signers, reader).value)
  {
    hide AuthsOf, CountLists;
    var i1 := StepTxStart(i, info, signers, reader).value;
    WorkInGrows(i.work, i.ordinal, i.ordinal + 1);
    forall o: nat | o >= 1 ensures CountWork(i1.work, o) == CountWork(i.work, o) + One(o == i1.ordinal) {
      NoCalls(o);
      CountNothing(o);
    }
  }

  lemma IsoTxSafe(gapless: bool, i: State, e: TxEvent)
    requires IsoSafe(gapless, i) && !IsCompleted(i) && i.work.trx.Some? && StepTx(i, e).Ok?
    ensures IsoSafe(gapless, StepTx(i, e).value) && StepTx(i, e).value.block == i.block
  {
    hide StepWork, CountWork, WorkIn;
    var i1 := StepTx(i, e).value;
    StepIn(CtxOf(i), i.work, i.ordinal, e);
    IsoEventTidy(CtxOf(i), i.work, i.ordinal, e);
    forall o: nat | o >= 1 ensures Right(gapless, CountWork(i1.work, o), o, i1.ordinal) {
      EventCounts(CtxOf(i), i.work, i.ordinal, e, o);
      assert Right(gapless, CountWork(i.work, o), o, i.ordinal);
    }
    EventCounts(CtxOf(i), i.work, i.ordinal, e, 1);
  }

  lemma IsoEventTidy(ctx: Ctx, w: Work, ord: nat, e: TxEvent)
    requires w.trx.Some? && w.trx.value.endOrdinal == 0 && StepWork(ctx, w, ord, e).Ok?
    ensures var r := StepWork(ctx, w, ord, e).value; r.0.trx.Some? && r.0.trx.value.endOrdinal == 0
  {
  }

  lemma IsoEndSafe(cfg: Config, gapless: bool, i: State, receipt: Option<Receipt>)
    requires IsoSafe(gapless, i) && !IsCompleted(i) && StepTxEnd(cfg, i, receipt).Ok?
    requires gapless ==> IsoNoLoss(i, TxEnd(receipt))
    ensures IsoSafe(gapless, StepTxEnd(cfg, i, receipt).value) && StepTxEnd(cfg, i, receipt).value.block == i.block
  {
    hide Complete, CountLists, CountCalls, CountTx, TxIn;
    if !(receipt.None? && cfg.dropWithoutReceipt) {
      var trx, w := i.work.trx.value, i.work;
      var i1 := StepTxEnd(cfg, i, receipt).value;
      CompleteIn(cfg, trx, w.deferred, w.preimages, receipt, i.ordinal);
      CompleteEndsAt(cfg, trx, w.deferred, w.preimages, receipt, i.ordinal + 1);
      forall o: nat | o >= 1 ensures Right(gapless, CountWork(i1.work, o), o, i1.ordinal) {
        CompleteCounts(cfg, trx, w.deferred, w.preimages, receipt, i.ordinal + 1, o);
        CountNothing(o);
        assert Right(gapless, CountWork(i.work, o), o, i.ordinal);
      }
    }
  }

  lemma CompleteEndsAt(cfg: Config, trx: TxTrace, leftover: Lists, recorded: seq<Recorded>, receipt: Option<Receipt>,
                       end: nat)
    ensures var r := Complete(cfg, trx, leftover, recorded, receipt, end); r.Ok? ==> r.value.endOrdinal == end
  {
    hide SettledCalls, PairLogs, ArrangedCalls, CheckedAuths, ReceiptBefore;
  }

  lemma IsolatedSafe(cfg: Config, gapless: bool, i: State, e: Event)
    requires IsoSafe(gapless, i) && OrderlyIso(i, e) && Step(cfg, i, e).Ok? && (gapless ==> IsoNoLoss(i, e))
    ensures IsoSafe(gapless, Step(cfg, i, e).value) && Step(cfg, i, e).value.block == i.block
  {
    hide StepBlockStart, StepBlockEnd, StepTxStart, StepTxEnd, StepSysStart, StepSysEnd, StepSnapshot, StepTx;
    match e
    case TxStart(tx, signers, reader) =>
      IsoStartSafe(gapless, i, tx, signers, reader);
      assert Step(cfg, i, e).value.block == i.block by { TxStartKeepsBlock(i, tx, signers, reader); }
    case TxEnd(receipt) => IsoEndSafe(cfg, gapless, i, receipt);
    case Tx(e) => IsoTxSafe(gapless, i, e);
    case TxReset =>
      forall o: nat | o >= 1 ensures CountWork(FRESH.(preimages := i.work.preimages), o) == 0 {
      }
  }

  lemma TxStartKeepsBlock(i: State, info: TxInfo, signers: seq<(Bytes, nat)>, reader: bool)
    ensures StepTxStart(i, info, signers, reader).Ok? ==> StepTxStart(i, info, signers, reader).value.block == i.block
  {
  }

  // ---------------------------------------------------------------- commits

  lemma {:induction false} ShiftedChanges(s: seq<Change>, base: nat, o: nat)
    ensures o >= base ==> CountChanges(ChangesBy(AddBase(base), s), o) == CountChanges(s, o - base)
    ensures o < base ==> CountChanges(ChangesBy(AddBase(base), s), o) == 0
    decreases |s|
  {
    if |s| > 0 {
      MapTake(ChangeBy(AddBase(base)), s, |s| - 1);
      assert ChangesBy(AddBase(base), s)[|s| - 1].ordinal == s[|s| - 1].ordinal + base;
      ShiftedChanges(s[..|s| - 1], base, o);
    }
  }

  lemma {:induction false} ShiftedCalls(s: seq<CallRec>, base: nat, o: nat)
    ensures o >= base ==> CountCalls(CallsBy(AddBase(base), s), o) == CountCalls(s, o - base)
    ensures o < base ==> CountCalls(CallsBy(AddBase(base), s), o) == 0
    decreases |s|
  {
    hide CountCall;
    if |s| > 0 {
      MapTake(CallBy(AddBase(base)), s, |s| - 1);
      ShiftedCalls(s[..|s| - 1], base, o);
      ShiftedCall(s[|s| - 1], base, o);
    }
  }

  lemma ShiftedCall(c: CallRec, base: nat, o: nat)
    ensures o >= base ==> CountCall(CallBy(AddBase(base))(c), o) == CountCall(c, o - base)
    ensures o < base ==> CountCall(CallBy(AddBase(base))(c), o) == 0
  {
    hide CountChanges;
    ShiftedChanges(c.lists.balance, base, o);
    ShiftedChanges(c.lists.nonce, base, o);
    ShiftedChanges(c.lists.code, base, o);
    ShiftedChanges(c.lists.storage, base, o);
    ShiftedChanges(c.lists.logs, base, o);
  }

  lemma {:induction false} NoZero(s: seq<Change>, hi: nat)
    requires ChangesIn(s, hi)
    ensures CountChanges(s, 0) == 0
    decreases |s|
  {
    if |s| > 0 {
      NoZero(s[..|s| - 1], hi);
    }
  }

  lemma {:induction false} NoZeroCalls(s: seq<CallRec>, hi: nat)
    requires AllClosedIn(s, hi)
    ensures CountCalls(s, 0) == 0
    decreases |s|
  {
    if |s| > 0 {
      NoZeroCalls(s[..|s| - 1], hi);
      var c := s[|s| - 1];
      assert ClosedIn(c, hi);
      NoZero(c.lists.balance, hi);
      NoZero(c.lists.nonce, hi);
      NoZero(c.lists.code, hi);
      NoZero(c.lists.storage, hi);
      NoZero(c.lists.logs, hi);
    }
  }

  lemma CommitCounts(s: State, trx: TxTrace, hi: nat, o: nat)
    requires s.block.Some? && TxIn(trx, hi) && o >= 1
    ensures CountState(Committed(s, trx), o)
         == CountState(s, o) + if o > s.ordinal then CountTx(trx, o - s.ordinal) else 0
  {
    hide CountCalls, CountWork, CountTxs, CountChanges, TxBy;
    ShiftedCalls(trx.calls, s.ordinal, o);
    NoZeroCalls(trx.calls, hi);
    ShiftedTx(trx, s.ordinal);
    CountAddTx(s.block.value.txs, TxBy(AddBase(s.ordinal), trx), o);
  }

  lemma ShiftedTx(trx: TxTrace, base: nat)
    ensures var t := TxBy(AddBase(base), trx);
      t.beginOrdinal == trx.beginOrdinal + base && t.endOrdinal == trx.endOrdinal + base
      && t.calls == CallsBy(AddBase(base), trx.calls)
  {
  }

  /** A commit keeps ordinals distinct and within the counter, gapless too, and brings no zero in. */
  lemma CommitSafe(gapless: bool, s: State, counters: seq<nat>, i: State)
    requires Invariant(gapless, s, counters) && s.block.Some? && IsoOwnSafe(gapless, i) && IsCompleted(i)
    ensures Invariant(gapless, Committed(s, i.work.trx.value), counters)
    ensures ZeroFree(s) ==> ZeroFree(Committed(s, i.work.trx.value))
  {
    hide CountState, CountTx, TxIn, TidyWork, BlockRight, CountSnapshot, ZeroFree, WorkIn;
    var trx := i.work.trx.value;
    var s1 := Committed(s, trx);
    ShiftedTx(trx, s.ordinal);
    forall o: nat | o >= 1 ensures Right(gapless, CountState(s1, o), o, s1.ordinal) {
      CommitCounts(s, trx, i.ordinal, o);
      assert Right(gapless, CountState(s, o), o, s.ordinal);
      if o > s.ordinal {
        CompletedCounts(gapless, i, o - s.ordinal);
      }
    }
    WorkInGrows(s.work, s.ordinal, s1.ordinal);
    SavedGrows(s, s1.ordinal);
    if ZeroFree(s) {
      CommitZero(s, trx, i.ordinal);
    }
  }

  lemma CommitZero(s: State, trx: TxTrace, hi: nat)
    requires s.block.Some? && ZeroFree(s) && TxIn(trx, hi)
    ensures ZeroFree(Committed(s, trx))
  {
    hide CountCalls, CountTxs, CountChanges, TxBy;
    ShiftedTx(trx, s.ordinal);
    ShiftedCalls(trx.calls, s.ordinal, 0);
    NoZeroCalls(trx.calls, hi);
    CountAddTx(s.block.value.txs, TxBy(AddBase(s.ordinal), trx), 0);
  }

  lemma CompletedCounts(gapless: bool, i: State, o: nat)
    requires IsoOwnSafe(gapless, i) && IsCompleted(i) && o >= 1
    ensures Right(gapless, CountTx(i.work.trx.value, o), o, i.ordinal)
  {
    hide CountTx, CountLists;
    assert Right(gapless, CountWork(i.work, o), o, i.ordinal);
    NoCalls(o);
    CountNothing(o);
  }

  // ---------------------------------------------------------------- whole runs

  ghost predicate WorldSafe(gapless: bool, w: World, counters: seq<nat>) {
    Invariant(gapless, w.coord, counters) && forall id :: id in w.iso ==> IsoSafe(gapless, w.iso[id])
  }

  predicate NoLossAction(cfg: Config, w: World, a: Action) {
    match a
    case Coord(e) => NoLoss(cfg, w.coord, e)
    case OnIso(id, e) => id in w.iso ==> IsoNoLoss(w.iso[id], e)
    case _ => true
  }

  ghost predicate LosslessRun(cfg: Config, w: World, actions: seq<Action>)
    decreases |actions|
  {
    |actions| > 0 ==>
      && NoLossAction(cfg, w, actions[0])
      && var r := StepWorld(cfg, w, actions[0]); r.Ok? ==> LosslessRun(cfg, r.value, actions[1..])
  }

  function ActionCounters(w: World, a: Action, counters: seq<nat>): seq<nat> {
    if a.Coord? then CountersAfter(w.coord, a.e, counters) else counters
  }

  /** The coordinator's counter at each emission of the run, in order. */
  ghost function Counters(cfg: Config, w: World, actions: seq<Action>): seq<nat>
    decreases |actions|
  {
    if |actions| == 0 then []
    else
      ActionCounters(w, actions[0], [])
      + var r := StepWorld(cfg, w, actions[0]); if r.Ok? then Counters(cfg, r.value, actions[1..]) else []
  }

  predicate EndsInside(cfg: Config, w: World, a: Action) { a.Coord? && EndsInSystemCall(cfg, w.coord, a.e) }

  /** The run never ends a transaction while a system call is running. */
  ghost predicate NeverEndsInside(cfg: Config, w: World, actions: seq<Action>)
    decreases |actions|
  {
    |actions| > 0 ==>
      && !EndsInside(cfg, w, actions[0])
      && var r := StepWorld(cfg, w, actions[0]); r.Ok? ==> NeverEndsInside(cfg, r.value, actions[1..])
  }

  /** No state along the run has a block with ordinal zero. */
  ghost predicate AlwaysZeroFree(cfg: Config, w: World, actions: seq<Action>)
    decreases |actions|
  {
    && ZeroFree(w.coord)
    && (|actions| > 0 ==> var r := StepWorld(cfg, w, actions[0]); r.Ok? ==> AlwaysZeroFree(cfg, r.value, actions[1..]))
  }

  lemma ActionSafe(cfg: Config, gapless: bool, w: World, counters: seq<nat>, a: Action)
    requires WorldSafe(gapless, w, counters) && OrderlyAction(w, a) && StepWorld(cfg, w, a).Ok?
    requires gapless ==> NoLossAction(cfg, w, a)
    ensures WorldSafe(gapless, StepWorld(cfg, w, a).value, ActionCounters(w, a, counters))
    ensures ZeroFree(w.coord) ==> (ZeroFree(StepWorld(cfg, w, a).value.coord) <==> !EndsInside(cfg, w, a))
  {
    hide Step, Invariant, ZeroFree, IsoSafe, IsoOwnSafe, Committed, Spent, Orderly, NoLoss, EndsInSystemCall;
    hide CountersAfter;
    match a
    case Coord(e) => CoordinatorSafe(cfg, gapless, w.coord, counters, e);
    case Spawn(id) => SpawnSafe(gapless, w.coord);
    case OnIso(id, e) =>
      var i := w.iso[id].(block := w.coord.block);
      SameIso(gapless, w.iso[id], w.coord.block);
      IsolatedSafe(cfg, gapless, i, e);
      assert w.coord.(block := w.coord.block) == w.coord;
    case Commit(id) =>
      SameMarks(gapless, w.iso[id]);
      if w.iso[id].ended && w.iso[id].work.trx.Some? && !w.iso[id].dropped {
        EndedIsCompleted(gapless, w.coord.ordinal, w.iso[id]);
        CommitSafe(gapless, w.coord, counters, w.iso[id]);
      }
  }

  lemma SameIso(gapless: bool, i: State, b: Option<Block>)
    requires IsoSafe(gapless, i)
    ensures IsoSafe(gapless, i.(block := b))
  {
    hide CountWork, TxIn, WorkIn;
  }

  lemma SameMarks(gapless: bool, i: State)
    requires IsoSafe(gapless, i)
    ensures IsoSafe(gapless, i.(dropped := false))
  {
    hide CountWork, TxIn, WorkIn;
  }

  lemma EndedIsCompleted(gapless: bool, base: nat, i: State)
    requires IsoSafe(gapless, i) && i.ended
    ensures IsCompleted(i) && IsoOwnSafe(gapless, i) && IsoSafe(gapless, Spent(base, i))
  {
    hide IsoOwnSafe;
  }

  lemma {:induction false} RunSafe(cfg: Config, gapless: bool, w: World, counters: seq<nat>, actions: seq<Action>)
    requires WorldSafe(gapless, w, counters) && OrderlyRun(cfg, w, actions) && RunWorld(cfg, w, actions).Ok?
    requires gapless ==> LosslessRun(cfg, w, actions)
    ensures WorldSafe(gapless, RunWorld(cfg, w, actions).value, counters + Counters(cfg, w, actions))
    ensures ZeroFree(w.coord) ==> (AlwaysZeroFree(cfg, w, actions) <==> NeverEndsInside(cfg, w, actions))
    ensures AlwaysZeroFree(cfg, w, actions) ==> ZeroFree(RunWorld(cfg, w, actions).value.coord)
    decreases |actions|
  {
    hide StepWorld, WorldSafe, OrderlyAction, NoLossAction, ZeroFree, EndsInside, ActionCounters;
    if |actions| == 0 {
      assert counters + [] == counters;
    } else {
      ActionSafe(cfg, gapless, w, counters, actions[0]);
      CountersJoin(w, actions[0], counters);
      var w1 := StepWorld(cfg, w, actions[0]).value;
      RunSafe(cfg, gapless, w1, ActionCounters(w, actions[0], counters), actions[1..]);
      assert counters + (ActionCounters(w, actions[0], []) + Counters(cfg, w1, actions[1..]))
          == (counters + ActionCounters(w, actions[0], [])) + Counters(cfg, w1, actions[1..]);
    }
  }

  lemma CountersJoin(w: World, a: Action, counters: seq<nat>)
    ensures ActionCounters(w, a, counters) == counters + ActionCounters(w, a, [])
  {
    assert [] + [w.coord.ordinal] == [w.coord.ordinal];
  }

  lemma StartSafe(gapless: bool)
    ensures WorldSafe(gapless, START, []) && ZeroFree(INITIAL)
  {
    NothingUnderWay(0);
    forall o: nat | o >= 1 ensures CountState(INITIAL, o) == 0 {
    }
  }

  /** Ordinal safety. In every state an orderly run reaches no positive ordinal is recorded twice or exceeds the
      counter, and in every block it emits none exceeds the counter of its emission; when the run meets none of
      the loss cases, the recorded ordinals are exactly 1..counter. Ordinal zero stays out of all blocks along
      the run exactly when no transaction is ended while a system call is running. */
  lemma OrdinalSafety(cfg: Config, gapless: bool, actions: seq<Action>)
    requires OrderlyRun(cfg, START, actions) && RunWorld(cfg, START, actions).Ok?
    requires gapless ==> LosslessRun(cfg, START, actions)
    ensures var s := RunWorld(cfg, START, actions).value.coord;
      Safe(gapless, s) && SnapshotSafe(gapless, s.snapshot)
      && OutputSafe(gapless, s.output, Counters(cfg, START, actions))
    ensures AlwaysZeroFree(cfg, START, actions) <==> NeverEndsInside(cfg, START, actions)
    ensures NeverEndsInside(cfg, START, actions) ==> ZeroFree(RunWorld(cfg, START, actions).value.coord)
  {
    hide StepWorld, OrderlyRun, LosslessRun, RunWorld, Safe, SnapshotSafe, OutputSafe, ZeroFree, Counters;
    hide AlwaysZeroFree, NeverEndsInside;
    StartSafe(gapless);
    RunSafe(cfg, gapless, START, [], actions);
    assert [] + Counters(cfg, START, actions) == Counters(cfg, START, actions);
  }

  /** So in a run that never ends a transaction inside a system call, every emitted block records pairwise
      distinct ordinals within 1..counter at its emission, zero included in the claim; all of 1..counter when
      nothing is lost. */
  lemma EmittedOrdinals(cfg: Config, gapless: bool, actions: seq<Action>, k: nat, o: nat)
    requires OrderlyRun(cfg, START, actions) && RunWorld(cfg, START, actions).Ok?
             && NeverEndsInside(cfg, START, actions)
    requires gapless ==> LosslessRun(cfg, START, actions)
    requires k < |RunWorld(cfg, START, actions).value.coord.output|
    ensures var counters := Counters(cfg, START, actions);
      k < |counters|
      && Right(gapless, CountBlock(RunWorld(cfg, START, actions).value.coord.output[k].block, o), o, counters[k])
  {
    hide OrderlyRun, LosslessRun, RunWorld, Safe, SnapshotSafe, Counters, AlwaysZeroFree, NeverEndsInside, CountBlock;
    OrdinalSafety(cfg, gapless, actions);
  }

  /** One that does end transactions inside system calls: after two of them ordinal zero is twice in the block
      emitted. */
  lemma EndingInsideCollides(cfg: Config, info: BlockInfo)
    requires !cfg.dropWithoutReceipt
    ensures var r := Run(cfg, INITIAL, [BlockStart(info, false, None, None), SysStart, TxEnd(None),
                                        SysStart, TxEnd(None), BlockEnd(false)]);
      r.Ok? && |r.value.output| == 1 && CountBlock(r.value.output[0].block, 0) == 2
  {
    hide Run;
    var s1, t1, t2 := InBlock(NewBlock(info), 0), SYSTEM_TX.(endOrdinal := 1), SYSTEM_TX.(endOrdinal := 2);
    var b1 := AddTx(NewBlock(info), t1);
    var b2 := AddTx(b1, t2);
    var last := [BlockEnd(false)];
    RunNext(cfg, INITIAL, BlockStart(info, false, None, None),
            [SysStart, TxEnd(None)] + ([SysStart, TxEnd(None)] + last), s1);
    EndedInside(cfg, NewBlock(info), 0, [SysStart, TxEnd(None)] + last);
    EndedInside(cfg, b1, 1, last);
    var s4 := INITIAL.(output := [Output(b2, 0, None)]);
    assert [] + [Output(b2, 0, None)] == [Output(b2, 0, None)];
    RunNext(cfg, InBlock(b2, 2), BlockEnd(false), [], s4);
    assert [BlockStart(info, false, None, None)] + ([SysStart, TxEnd(None)] + ([SysStart, TxEnd(None)] + last))
        == [BlockStart(info, false, None, None), SysStart, TxEnd(None), SysStart, TxEnd(None), BlockEnd(false)];
    assert [BlockEnd(false)] + [] == last;
    TwoZeros(info, t1, t2);
  }

  function InBlock(b: Block, ordinal: nat): State { INITIAL.(block := Some(b), ordinal := ordinal) }

  lemma RunNext(cfg: Config, s: State, e: Event, es: seq<Event>, s1: State)
    requires Step(cfg, s, e) == Ok(s1)
    ensures Run(cfg, s, [e] + es) == Run(cfg, s1, es) && Run(cfg, s1, []) == Ok(s1)
  {
    assert ([e] + es)[1..] == es;
  }

  /** The stand-in transaction, ended as one, goes to the block without a begin ordinal. */
  lemma EndedInside(cfg: Config, b: Block, ordinal: nat, rest: seq<Event>)
    requires !cfg.dropWithoutReceipt
    ensures Run(cfg, InBlock(b, ordinal), [SysStart, TxEnd(None)] + rest)
         == Run(cfg, InBlock(AddTx(b, SYSTEM_TX.(endOrdinal := ordinal + 1)), ordinal + 1), rest)
  {
    hide Run;
    var s := InBlock(b, ordinal);
    var s1 := s.(inSystemCall := true, work := FRESH.(trx := Some(SYSTEM_TX)));
    RunNext(cfg, s, SysStart, [TxEnd(None)] + rest, s1);
    RunNext(cfg, s1, TxEnd(None), rest, InBlock(AddTx(b, SYSTEM_TX.(endOrdinal := ordinal + 1)), ordinal + 1));
    assert [SysStart] + ([TxEnd(None)] + rest) == [SysStart, TxEnd(None)] + rest;
  }

  lemma TwoZeros(info: BlockInfo, t1: TxTrace, t2: TxTrace)
    requires t1.beginOrdinal == 0 && t1.endOrdinal == 1 && t1.calls == []
    requires t2.beginOrdinal == 0 && t2.endOrdinal == 2 && t2.calls == []
    ensures CountBlock(AddTx(AddTx(NewBlock(info), t1), t2), 0) == 2
  {
    CountAddTx([], t1, 0);
    CountAddTx([] + [t1], t2, 0);
  }
}
