/** From one block to the next: the idle state between blocks, independence of ordinary blocks from
    history, and one flash-block iteration after another (tracer.go:183-216, 415-507, 543-556). */
module Blocks {
  import opened Bytes
  import opened Wrappers
  import opened Model
  import opened Completion
  import opened Machine
  import opened Steps

  // ---------------------------------------------------------------- the idle state

  /** Between blocks the coordinator is as new, but for the flash snapshot and what it has emitted. */
  ghost predicate Between(s: State) {
    s == INITIAL.(snapshot := s.snapshot, output := s.output)
  }

  /** Ending a block, even on an error inside a transaction or an interrupting system call, leaves the coordinator
      idle. */
  lemma BlockEndIdles(cfg: Config, s: State, failed: bool)
    requires !s.isolated && !s.dropped && Step(cfg, s, BlockEnd(failed)).Ok?
    ensures Between(Step(cfg, s, BlockEnd(failed)).value)
  {
  }

  /** An error ends any open block, whatever is going on in it. */
  lemma FailedBlockEnds(cfg: Config, s: State)
    ensures Step(cfg, s, BlockEnd(true)).Ok? <==> s.block.Some?
  {
  }

  // ---------------------------------------------------------------- independence of history

  function WithHistory(s: State, snapshot: Option<Snapshot>, past: seq<Output>): State {
    s.(snapshot := snapshot, output := past + s.output)
  }

  predicate Ordinary(e: Event) { !(e.BlockStart? && e.flash.Some?) }

  ghost predicate SameUnderHistory(r: Result<State>, r': Result<State>, snapshot: Option<Snapshot>, past: seq<Output>) {
    r.Panic? == r'.Panic? && (r.Ok? ==> r'.value == WithHistory(r.value, snapshot, past) && r.value.flash.None?)
  }

  lemma BlockStartHistory(s: State, snapshot: Option<Snapshot>, past: seq<Output>, info: BlockInfo, prague: bool,
                          finalized: Option<nat>)
    requires s.flash.None?
    ensures SameUnderHistory(StepBlockStart(s, info, prague, None, finalized),
                             StepBlockStart(WithHistory(s, snapshot, past), info, prague, None, finalized),
                             snapshot, past)
  {
  }

  /** What is left of a state when its block is over. */
  function Over(s: State): State {
    INITIAL.(isolated := s.isolated, dropped := s.dropped, snapshot := s.snapshot, output := s.output)
  }

  lemma EndIs(s: State, failed: bool)
    ensures StepBlockEnd(s, failed)
         == if s.block.None? || (!failed && s.work.trx.Some?) then Panic
            else if failed then Ok(Over(s.(snapshot := if s.flash.Some? then None else s.snapshot)))
            else Ok(Over(s.(output := s.output + [Output(s.block.value, s.finality, s.flash)])))
  {
  }

  lemma OverHistory(s: State, snapshot: Option<Snapshot>, past: seq<Output>)
    ensures Over(WithHistory(s, snapshot, past)) == WithHistory(Over(s), snapshot, past) && Over(s).flash == None
  {
  }

  lemma BlockEndHistory(s: State, snapshot: Option<Snapshot>, past: seq<Output>, failed: bool)
    requires s.flash.None?
    ensures SameUnderHistory(StepBlockEnd(s, failed), StepBlockEnd(WithHistory(s, snapshot, past), failed),
                             snapshot, past)
  {
    hide StepBlockEnd, Over;
    var s' := WithHistory(s, snapshot, past);
    EndIs(s, failed);
    EndIs(s', failed);
    if failed {
      assert s.(snapshot := s.snapshot) == s && s'.(snapshot := s'.snapshot) == s';
      OverHistory(s, snapshot, past);
    } else if s.block.Some? {
      var out := Output(s.block.value, s.finality, s.flash);
      assert past + (s.output + [out]) == (past + s.output) + [out];
      OverHistory(s.(output := s.output + [out]), snapshot, past);
    }
  }

  lemma TxStartHistory(s: State, snapshot: Option<Snapshot>, past: seq<Output>, info: TxInfo,
                       signers: seq<(Bytes, nat)>, reader: bool)
    requires s.flash.None?
    ensures SameUnderHistory(StepTxStart(s, info, signers, reader),
                             StepTxStart(WithHistory(s, snapshot, past), info, signers, reader), snapshot, past)
  {
    hide AuthsOf;
  }

  lemma ResetHistory(s: State, snapshot: Option<Snapshot>, past: seq<Output>)
    ensures ResetTransaction(WithHistory(s, snapshot, past)) == WithHistory(ResetTransaction(s), snapshot, past)
    ensures ResetTransaction(s).flash == s.flash
  {
  }

  lemma HandedOverHistory(s: State, snapshot: Option<Snapshot>, past: seq<Output>, hadCalls: bool)
    requires s.block.Some? && s.work.trx.Some?
    ensures HandedOver(WithHistory(s, snapshot, past), hadCalls) == WithHistory(HandedOver(s, hadCalls), snapshot, past)
    ensures HandedOver(s, hadCalls).flash == s.flash
  {
    hide AddTx;
  }

  lemma CompletedHistory(cfg: Config, s: State, snapshot: Option<Snapshot>, past: seq<Output>, receipt: Option<Receipt>)
    requires s.block.Some? && s.work.trx.Some?
    ensures var r := Completed(cfg, s, receipt);
      Completed(cfg, WithHistory(s, snapshot, past), receipt)
      == match r case Panic => Panic case Ok(s1) => Ok(WithHistory(s1, snapshot, past))
    ensures var r := Completed(cfg, s, receipt);
      r.Ok? ==> r.value.flash == s.flash && r.value.block.Some? && r.value.work.trx.Some?
  {
    hide Complete, EndedWork;
    EndedWorkTrx(s.work);
  }

  lemma EndedWorkTrx(w: Work)
    requires w.trx.Some?
    ensures forall done :: EndedWork(w, done).trx == Some(done)
  {
  }

  lemma TxEndHistory(cfg: Config, s: State, snapshot: Option<Snapshot>, past: seq<Output>, receipt: Option<Receipt>)
    requires s.flash.None?
    ensures SameUnderHistory(StepTxEnd(cfg, s, receipt), StepTxEnd(cfg, WithHistory(s, snapshot, past), receipt),
                             snapshot, past)
  {
    hide StepTxEnd, Completed, HandedOver, ResetTransaction;
    TxEndCases(cfg, s, receipt);
    TxEndCases(cfg, WithHistory(s, snapshot, past), receipt);
    ResetHistory(s, snapshot, past);
    if s.block.Some? && s.work.trx.Some? {
      CompletedHistory(cfg, s, snapshot, past, receipt);
      var r := Completed(cfg, s, receipt);
      if r.Ok? {
        HandedOverHistory(r.value, snapshot, past, |s.work.trx.value.calls| > 0);
      }
    }
  }

  function SysStarted(s: State): State {
    if s.work.trx.Some? then ResetTransaction(s).(saved := Some(s.work), inSystemCall := true,
                                                  work := FRESH.(trx := Some(SYSTEM_TX)))
    else s.(inSystemCall := true, work := s.work.(trx := Some(SYSTEM_TX)))
  }

  lemma SysStartIs(s: State)
    ensures StepSysStart(s) == if s.block.None? || (s.work.trx.Some? && s.inSystemCall) then Panic
                               else Ok(SysStarted(s))
  {
  }

  lemma InterruptingHistory(s: State, snapshot: Option<Snapshot>, past: seq<Output>)
    requires s.work.trx.Some?
    ensures SysStarted(WithHistory(s, snapshot, past)) == WithHistory(SysStarted(s), snapshot, past)
            && SysStarted(s).flash == s.flash
  {
  }

  lemma SysStartedHistory(s: State, snapshot: Option<Snapshot>, past: seq<Output>)
    ensures SysStarted(WithHistory(s, snapshot, past)) == WithHistory(SysStarted(s), snapshot, past)
            && SysStarted(s).flash == s.flash
  {
    if s.work.trx.Some? {
      InterruptingHistory(s, snapshot, past);
    }
  }

  lemma SysStartHistory(s: State, snapshot: Option<Snapshot>, past: seq<Output>)
    requires s.flash.None?
    ensures SameUnderHistory(StepSysStart(s), StepSysStart(WithHistory(s, snapshot, past)), snapshot, past)
  {
    hide StepSysStart, SysStarted;
    SysStartIs(s);
    SysStartIs(WithHistory(s, snapshot, past));
    SysStartedHistory(s, snapshot, past);
  }

  lemma SysEndHistory(s: State, snapshot: Option<Snapshot>, past: seq<Output>)
    requires s.flash.None?
    ensures SameUnderHistory(StepSysEnd(s), StepSysEnd(WithHistory(s, snapshot, past)), snapshot, past)
  {
    hide Attach;
  }

  lemma SameLevel(s: State, snapshot: Option<Snapshot>, past: seq<Output>, e: TxEvent)
    ensures BlockLevel(WithHistory(s, snapshot, past), e) == BlockLevel(s, e)
    ensures BlockLevel(s, e) ==> s.block.Some? && e.Changed?
  {
  }

  lemma TxHistory(s: State, snapshot: Option<Snapshot>, past: seq<Output>, e: TxEvent)
    requires s.flash.None?
    ensures SameUnderHistory(StepTx(s, e), StepTx(WithHistory(s, snapshot, past), e), snapshot, past)
  {
    hide StepWork, AddBlockChange, BlockLevel;
    var s' := WithHistory(s, snapshot, past);
    assert CtxOf(s') == CtxOf(s);
    SameLevel(s, snapshot, past, e);
    if !BlockLevel(s, e) {
      var r := StepWork(CtxOf(s), s.work, s.ordinal, e);
      assert StepWork(CtxOf(s'), s'.work, s'.ordinal, e) == r;
    }
  }

  lemma StepHistory(cfg: Config, s: State, e: Event, snapshot: Option<Snapshot>, past: seq<Output>)
    requires s.flash.None? && Ordinary(e)
    ensures SameUnderHistory(Step(cfg, s, e), Step(cfg, WithHistory(s, snapshot, past), e), snapshot, past)
  {
    hide StepBlockStart, StepBlockEnd, StepTxStart, StepTxEnd, StepSysStart, StepSysEnd, StepTx;
    match e
    case BlockStart(info, prague, _, finalized) => BlockStartHistory(s, snapshot, past, info, prague, finalized);
    case BlockEnd(failed) => BlockEndHistory(s, snapshot, past, failed);
    case TxStart(info, signers, reader) => TxStartHistory(s, snapshot, past, info, signers, reader);
    case TxEnd(receipt) => TxEndHistory(cfg, s, snapshot, past, receipt);
    case SysStart => SysStartHistory(s, snapshot, past);
    case SysEnd => SysEndHistory(s, snapshot, past);
    case Tx(e) => TxHistory(s, snapshot, past, e);
    case _ => {}
  }

  /** A run without flash blocks does the same whatever snapshot and output earlier blocks left behind. */
  lemma {:induction false} RunHistory(cfg: Config, s: State, es: seq<Event>, snapshot: Option<Snapshot>,
                                      past: seq<Output>)
    requires s.flash.None? && forall i :: 0 <= i < |es| ==> Ordinary(es[i])
    ensures SameUnderHistory(Run(cfg, s, es), Run(cfg, WithHistory(s, snapshot, past), es), snapshot, past)
    decreases |es|
  {
    hide Step, WithHistory;
    if |es| > 0 {
      StepHistory(cfg, s, es[0], snapshot, past);
      var r := Step(cfg, s, es[0]);
      if r.Ok? {
        RunHistory(cfg, r.value, es[1..], snapshot, past);
      }
    }
  }

  /** Block independence. From any two idle coordinators, whatever they traced before, the same ordinary
      events panic or succeed together and emit the same blocks. */
  lemma BlocksIndependent(cfg: Config, s: State, t: State, es: seq<Event>)
    requires Between(s) && Between(t) && forall i :: 0 <= i < |es| ==> Ordinary(es[i])
    ensures var r, r' := Run(cfg, s, es), Run(cfg, t, es);
      && r.Panic? == r'.Panic?
      && (r.Ok? ==> exists emitted :: r.value.output == s.output + emitted && r'.value.output == t.output + emitted)
  {
    hide Step, Run;
    RunHistory(cfg, INITIAL, es, s.snapshot, s.output);
    RunHistory(cfg, INITIAL, es, t.snapshot, t.output);
    assert s.output + [] == s.output && t.output + [] == t.output;
    assert WithHistory(INITIAL, s.snapshot, s.output) == s && WithHistory(INITIAL, t.snapshot, t.output) == t;
  }

  // ---------------------------------------------------------------- flash blocks

  /** A block start is rejected exactly when a stored snapshot of the same block has an index that is not
      smaller; the index of an iteration that took no snapshot is not remembered. */
  lemma FlashStartRejected(s: State, info: BlockInfo, prague: bool, flash: Option<Flash>, finalized: Option<nat>)
    ensures StepBlockStart(s, info, prague, flash, finalized).Panic?
       <==> flash.Some? && s.snapshot.Some? && s.snapshot.value.number == info.number
            && flash.value.idx <= s.snapshot.value.flashIndex
  {
  }

  /** So without snapshots iterations of one block may go backwards. */
  lemma FlashIndexMayGoBack(cfg: Config, info: BlockInfo, hi: nat, lo: nat)
    requires lo <= hi
    ensures Run(cfg, INITIAL, [BlockStart(info, false, Some(Flash(hi, false)), None), BlockEnd(false),
                               BlockStart(info, false, Some(Flash(lo, false)), None)]).Ok?
  {
    hide Step;
    var start, again := BlockStart(info, false, Some(Flash(hi, false)), None),
                        BlockStart(info, false, Some(Flash(lo, false)), None);
    RunConcat(cfg, INITIAL, [start], [BlockEnd(false), again]);
    assert [start] + [BlockEnd(false), again] == [start, BlockEnd(false), again];
    RunSingle(cfg, INITIAL, start);
    EmptyFlashBlock(cfg, INITIAL, info, hi);
    var s1 := Step(cfg, INITIAL, start).value;
    RunConcat(cfg, s1, [BlockEnd(false)], [again]);
    assert [BlockEnd(false)] + [again] == [BlockEnd(false), again];
    RunSingle(cfg, s1, BlockEnd(false));
    var s2 := Step(cfg, s1, BlockEnd(false)).value;
    RunSingle(cfg, s2, again);
    EmptyFlashBlock(cfg, s2, info, lo);
  }

  lemma EmptyFlashBlock(cfg: Config, s: State, info: BlockInfo, idx: nat)
    requires s.snapshot.None? && s.work.trx.None?
    ensures var r := Step(cfg, s, BlockStart(info, false, Some(Flash(idx, false)), None));
      && r.Ok? && r.value.work == s.work && r.value.snapshot.None?
      && var e := Step(cfg, r.value, BlockEnd(false)); e.Ok? && e.value.work.trx.None? && e.value.snapshot.None?
  {
    hide StepTxEnd, StepTxStart, StepTx, StepSysStart, StepSysEnd, StepSnapshot, StepTxReset;
  }

  /** `r` is `s` after an event that concerns only transactions and system calls. */
  ghost predicate BlockKept(s: State, r: State) {
    && r.snapshot == s.snapshot && r.flash == s.flash && r.output == s.output
    && s.block.Some? == r.block.Some? && (s.block.Some? ==> r.block.value.info == s.block.value.info)
  }

  lemma TxKeepsBlock(s: State, e: TxEvent)
    ensures StepTx(s, e).Ok? ==> BlockKept(s, StepTx(s, e).value)
  {
    hide StepWork;
  }

  lemma TxEndKeepsBlock(cfg: Config, s: State, receipt: Option<Receipt>)
    ensures StepTxEnd(cfg, s, receipt).Ok? ==> BlockKept(s, StepTxEnd(cfg, s, receipt).value)
  {
    hide Complete;
  }

  lemma SystemKeepsBlock(s: State)
    ensures StepSysStart(s).Ok? ==> BlockKept(s, StepSysStart(s).value)
    ensures StepSysEnd(s).Ok? ==> BlockKept(s, StepSysEnd(s).value)
  {
    hide Attach;
  }

  lemma InnerStep(cfg: Config, s: State, e: Event)
    requires Inner(e) && Step(cfg, s, e).Ok?
    ensures BlockKept(s, Step(cfg, s, e).value)
  {
    hide StepTxEnd, StepSysStart, StepSysEnd, StepTx, AuthsOf;
    match e
    case TxEnd(receipt) => TxEndKeepsBlock(cfg, s, receipt);
    case SysStart => SystemKeepsBlock(s);
    case SysEnd => SystemKeepsBlock(s);
    case Tx(e) => TxKeepsBlock(s, e);
    case _ => {}
  }

  /** They leave the stored snapshot alone. */
  lemma {:induction false} InnerRun(cfg: Config, s: State, es: seq<Event>)
    requires (forall i :: 0 <= i < |es| ==> Inner(es[i])) && Run(cfg, s, es).Ok?
    ensures BlockKept(s, Run(cfg, s, es).value)
    decreases |es|
  {
    hide Step;
    if |es| > 0 {
      InnerStep(cfg, s, es[0]);
      InnerRun(cfg, Step(cfg, s, es[0]).value, es[1..]);
    }
  }

  /** One iteration of a flash block: it starts, traces, takes its snapshot, traces on, and ends. */
  datatype Iteration = Iteration(info: BlockInfo, prague: bool, flash: Flash, finalized: Option<nat>,
                                 before: seq<Event>, after: seq<Event>)

  predicate IterationOk(it: Iteration, number: nat) {
    && it.info.number == number
    && (forall i :: 0 <= i < |it.before| ==> Inner(it.before[i]))
    && forall i :: 0 <= i < |it.after| ==> Inner(it.after[i])
  }

  function StartOf(it: Iteration): Event { BlockStart(it.info, it.prague, Some(it.flash), it.finalized) }

  function UpToSnapshot(it: Iteration): seq<Event> { [StartOf(it)] + it.before }

  function IterationEvents(it: Iteration): seq<Event> {
    UpToSnapshot(it) + ([TakeSnapshot] + (it.after + [BlockEnd(false)]))
  }

  /** The snapshot of the state reached when the iteration takes it. */
  function SnapshotOf(s: State): Snapshot
    requires s.block.Some? && s.flash.Some?
  {
    var b := s.block.value;
    Snapshot(b.info.number, b.txs, b.systemCalls, b.balanceChanges, b.codeChanges, s.ordinal, s.flash.value.idx)
  }

  lemma RunSingle(cfg: Config, s: State, e: Event)
    ensures Run(cfg, s, [e]) == Step(cfg, s, e)
  {
    hide Step;
    var r := Step(cfg, s, e);
    assert [e][1..] == [];
  }

  /** After an iteration, the stored snapshot is exactly the state at its snapshot point, untouched by what the
      iteration traced afterwards. */
  lemma IterationLeaves(cfg: Config, s: State, it: Iteration)
    requires IterationOk(it, it.info.number) && Run(cfg, s, IterationEvents(it)).Ok?
    ensures var at, end := Run(cfg, s, UpToSnapshot(it)), Run(cfg, s, IterationEvents(it)).value;
      && at.Ok? && at.value.block.Some? && at.value.flash == Some(it.flash) && at.value.block.value.info == it.info
      && end.snapshot == Some(SnapshotOf(at.value)) && end.block.None? && end.flash.None?
  {
    hide Step, Run;
    var tail := [TakeSnapshot] + (it.after + [BlockEnd(false)]);
    RunConcat(cfg, s, UpToSnapshot(it), tail);
    RunConcat(cfg, s, [StartOf(it)], it.before);
    RunSingle(cfg, s, StartOf(it));
    StartFacts(cfg, s, it);
    var s1 := Step(cfg, s, StartOf(it)).value;
    InnerRun(cfg, s1, it.before);
    var at := Run(cfg, s1, it.before).value;
    RunConcat(cfg, at, [TakeSnapshot], it.after + [BlockEnd(false)]);
    RunSingle(cfg, at, TakeSnapshot);
    SnapshotFacts(cfg, at);
    var s2 := Step(cfg, at, TakeSnapshot).value;
    RunConcat(cfg, s2, it.after, [BlockEnd(false)]);
    InnerRun(cfg, s2, it.after);
    var s3 := Run(cfg, s2, it.after).value;
    RunSingle(cfg, s3, BlockEnd(false));
    EndFacts(cfg, s3);
  }

  lemma StartFacts(cfg: Config, s: State, it: Iteration)
    requires Step(cfg, s, StartOf(it)).Ok?
    ensures var r := Step(cfg, s, StartOf(it)).value;
      r.block.Some? && r.flash == Some(it.flash) && r.block.value.info == it.info
  {
    hide StepTxEnd, StepTxStart, StepTx, StepSysStart, StepSysEnd, StepTxReset, StepSnapshot, StepBlockEnd;
    hide CheckedSnapshot;
  }

  lemma SnapshotFacts(cfg: Config, s: State)
    requires s.block.Some? && s.flash.Some?
    ensures Step(cfg, s, TakeSnapshot) == Ok(s.(snapshot := Some(SnapshotOf(s))))
  {
    hide StepTxEnd, StepTxStart, StepTx, StepSysStart, StepSysEnd, StepTxReset, StepBlockStart, StepBlockEnd;
  }

  lemma EndFacts(cfg: Config, s: State)
    requires Step(cfg, s, BlockEnd(false)).Ok?
    ensures var r := Step(cfg, s, BlockEnd(false)).value; r.snapshot == s.snapshot && r.block.None? && r.flash.None?
  {
    hide StepTxEnd, StepTxStart, StepTx, StepSysStart, StepSysEnd, StepTxReset, StepBlockStart, StepSnapshot;
  }

  /** The next iteration of the same block must have a larger index, and starts with exactly the transactions,
      system calls, balance changes, code changes and ordinal of the snapshot. */
  lemma IterationContinues(cfg: Config, s: State, it: Iteration)
    requires s.snapshot.Some? && s.snapshot.value.number == it.info.number && Step(cfg, s, StartOf(it)).Ok?
    ensures var snap, r := s.snapshot.value, Step(cfg, s, StartOf(it)).value;
      && it.flash.idx > snap.flashIndex
      && r.block == Some(Block(it.info, snap.txs, snap.systemCalls, snap.balanceChanges, snap.codeChanges))
      && r.ordinal == snap.ordinal
  {
    hide StepBlockEnd, StepTxEnd, StepTxStart, StepTx, StepSysStart, StepSysEnd, StepTxReset, StepSnapshot;
    var snap := s.snapshot.value;
    assert [] + snap.txs == snap.txs && [] + snap.systemCalls == snap.systemCalls;
    assert [] + snap.balanceChanges == snap.balanceChanges && [] + snap.codeChanges == snap.codeChanges;
  }

  /** A failed flash block discards the snapshot: the next iteration starts afresh, at any index. */
  lemma FailedFlashDiscards(cfg: Config, s: State, it: Iteration)
    requires s.flash.Some? && s.block.Some? && !s.isolated && !s.dropped
    ensures var r := Step(cfg, s, BlockEnd(true));
      && r.Ok? && r.value.snapshot.None?
      && Step(cfg, r.value, StartOf(it)).Ok? && Step(cfg, r.value, StartOf(it)).value.block == Some(NewBlock(it.info))
      && Step(cfg, r.value, StartOf(it)).value.ordinal == 0
  {
    hide StepTxEnd, StepTxStart, StepTx, StepSysStart, StepSysEnd, StepTxReset, StepSnapshot;
  }
}
