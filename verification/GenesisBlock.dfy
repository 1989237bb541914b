/** The genesis hook run on the machine: it emits one block with one transaction of one call, whose recorded
    changes replay to the allocation. */
module GenesisBlock {
  import opened Bytes
  import opened Wrappers
  import opened Model
  import opened Sorting
  import opened Completion
  import opened Machine
  import opened Forest
  import opened Trees
  import opened Genesis
  import Blocks

  const GENESIS_TX := TxInfo(ZERO_WORD, ZERO_ADDRESS, ZERO_ADDRESS, 0)
  const GENESIS_FRAME := Frame(0xf1, ZERO_ADDRESS, ZERO_ADDRESS, [], 0, 0, None)
  const GENESIS_EXIT := Exit([], 0, [], false)
  const GENESIS_RECEIPT := Receipt(0, 0, 1, [])

  function Leaves(changes: seq<StateChange>): Items {
    if |changes| == 0 then Done else Leaf(Changed(changes[0]), Leaves(changes[1..]))
  }

  /** The synthetic call with all changes in it. */
  function GenesisCall(changes: seq<StateChange>): Items { Sub(GENESIS_FRAME, Leaves(changes), GENESIS_EXIT, Done) }

  function GenesisEvents(info: BlockInfo, prague: bool, finalized: Option<nat>, changes: seq<StateChange>): seq<Event> {
    [BlockStart(info, prague, None, finalized)] + ([TxStart(GENESIS_TX, [], false)]
    + (Txs(Flatten(GenesisCall(changes), 0)) + ([TxEnd(Some(GENESIS_RECEIPT))] + [BlockEnd(false)])))
  }

  // ---------------------------------------------------------------- replay of recorded lists

  function Fold(l: Ledger, s: seq<Change>): Ledger {
    if |s| == 0 then l else Apply(Fold(l, s[..|s| - 1]), s[|s| - 1].body)
  }

  /** Replaying each kind of recorded changes in its order. */
  function LedgerOf(l: Lists): Ledger {
    Ledger(Fold(EMPTY_LEDGER, l.balance).balance, Fold(EMPTY_LEDGER, l.nonce).nonce,
           Fold(EMPTY_LEDGER, l.code).code, Fold(EMPTY_LEDGER, l.storage).storage)
  }

  lemma FoldPush(s: seq<Change>, c: Change)
    ensures Fold(EMPTY_LEDGER, s + [c]) == Apply(Fold(EMPTY_LEDGER, s), c.body)
  {
    assert (s + [c])[..|s|] == s;
  }

  lemma LedgerAdd(l: Lists, c: Change)
    ensures LedgerOf(AddTo(l, c)) == Apply(LedgerOf(l), c.body)
  {
    hide Fold, Slots;
    match c.body
    case Balance(_, _, _, _) => FoldPush(l.balance, c);
    case Nonce(_, _, _) => FoldPush(l.nonce, c);
    case Code(_, _, _, _, _) => FoldPush(l.code, c);
    case Storage(a, _, _, _) =>
      FoldPush(l.storage, c);
      SameSlots(Fold(EMPTY_LEDGER, l.storage), LedgerOf(l), a);
    case Log(_, _, _) => {}
  }

  lemma SameSlots(a: Ledger, b: Ledger, x: Bytes)
    requires a.storage == b.storage
    ensures Slots(a, x) == Slots(b, x)
  {
  }

  // ---------------------------------------------------------------- the call

  /** Reporting changes inside a call records them: nothing else about the call changes. */
  lemma {:induction false} LeavesRecorded(ctx: Ctx, reader: bool, changes: seq<StateChange>, depth: nat, c: CallRec,
                                          env: Env)
    requires !c.suicide
    ensures var b := Build(ctx, reader, Leaves(changes), depth, Inside(c), env);
      && b.h.Inside? && b.pre == [] && b.post == []
      && LedgerOf(b.h.c.lists) == ApplyAll(LedgerOf(c.lists), changes) && b.h.c.lists.logs == c.lists.logs
      && b.h.c.index == c.index && b.h.c.parentIndex == c.parentIndex
    decreases |changes|
  {
    hide LedgerOf, Apply;
    if |changes| > 0 {
      var e := Changed(changes[0]);
      var c1 := LeafOnCall(c, e, env.ord, env.logIndex);
      if Records(e, Some(c)) {
        LedgerAdd(c.lists, RecordOf(e, env.ord + 1, env.logIndex));
      }
      LeavesRecorded(ctx, reader, changes[1..], depth, c1, Forest.After(Inside(c), e, env));
      assert changes == [changes[0]] + changes[1..];
      ApplyJoin(LedgerOf(c.lists), [changes[0]], changes[1..]);
      ApplyOne(LedgerOf(c.lists), [changes[0]]);
    }
  }

  lemma {:induction false} LeavesWellFormed(changes: seq<StateChange>)
    ensures WellFormed(Leaves(changes), true)
    decreases |changes|
  {
    if |changes| > 0 {
      LeavesWellFormed(changes[1..]);
    }
  }

  /** The closed genesis call. */
  ghost predicate GenesisClosed(c: CallRec, changes: seq<StateChange>) {
    && c.index == 1 && c.parentIndex == 0 && c.lists.logs == []
    && LedgerOf(c.lists) == ApplyAll(EMPTY_LEDGER, changes)
  }

  lemma GenesisBuilt(ctx: Ctx, changes: seq<StateChange>, ord: nat)
    ensures var b := Build(ctx, false, GenesisCall(changes), 0, Outside(NO_CHANGES), Env(ord, 0, 0, []));
      && b.h == Outside(NO_CHANGES) && |b.pre| == 1 && b.post == b.pre && GenesisClosed(b.pre[0], changes)
  {
    hide ApplyAll;
    var env := Env(ord, 0, 0, []);
    var child := Child(ctx, false, GENESIS_FRAME, 0, Outside(NO_CHANGES), env);
    LeavesRecorded(ctx, false, changes, 1, child, env.(ord := ord + 1, index := 1));
    assert LedgerOf(NO_CHANGES) == EMPTY_LEDGER;
    var i := Build(ctx, false, Leaves(changes), 1, Inside(child), env.(ord := ord + 1, index := 1));
    var closed := Closed(i.h.c, GENESIS_EXIT, i.env.ord + 1);
    assert [closed] + i.pre + [] == [closed] && i.post + [closed] + [] == [closed];
  }

  // ---------------------------------------------------------------- completion

  lemma GenesisCompletes(cfg: Config, trx: TxTrace, c: CallRec, changes: seq<StateChange>, recorded: seq<Recorded>,
                         end: nat)
    requires trx.calls == [c] && GenesisClosed(c, changes)
    ensures var r := Complete(cfg, trx, NO_CHANGES, recorded, Some(GENESIS_RECEIPT), end);
      r.Ok? && |r.value.calls| == 1 && LedgerOf(r.value.calls[0].lists) == ApplyAll(EMPTY_LEDGER, changes)
  {
    hide ApplyAll, ArrangedCalls, SettledCalls, CheckedAuths, SomeFailed, LedgerOf;
    CompletionOrders(cfg, [c], [c], NO_CHANGES, recorded);
    var calls := SettledCalls(cfg, ArrangedCalls([c], NO_CHANGES, recorded)).value;
    ConcatEmpty(c.lists);
    assert calls[0] == Finalised(cfg, c, NO_CHANGES, calls[0].keccak, calls[0].stateReverted);
    assert calls[0].lists.logs == [];
    assert calls == [calls[0]];
    NoLogsPaired(cfg, calls, trx);
    SameLedger(c.lists, calls[0].lists);
  }

  lemma SameLedger(a: Lists, b: Lists)
    requires a.balance == b.balance && a.nonce == b.nonce && a.code == b.code && a.storage == b.storage
    ensures LedgerOf(a) == LedgerOf(b)
  {
  }

  lemma NoLogsPaired(cfg: Config, calls: seq<CallRec>, trx: TxTrace)
    requires |calls| == 1 && calls[0].lists.logs == []
    ensures PairLogs(cfg, calls, ReceiptBefore(trx, Some(GENESIS_RECEIPT))).Ok?
  {
    assert Surviving(cfg, calls) == [] by {
      assert calls[..0] == [];
      assert KeepNeverReverted(cfg, []) == [];
    }
  }

  // ---------------------------------------------------------------- the block

  /** The block emitted last holds one transaction of one call that replays to the given ledger. */
  ghost predicate EmitsGenesis(before: seq<Output>, after: seq<Output>, info: BlockInfo, ledger: Ledger) {
    && |after| == |before| + 1 && after[..|before|] == before
    && var b := after[|before|].block;
       b.info == info && |b.txs| == 1 && |b.txs[0].calls| == 1 && LedgerOf(b.txs[0].calls[0].lists) == ledger
       && b.systemCalls == [] && b.balanceChanges == [] && b.codeChanges == []
  }

  lemma GenesisRun(cfg: Config, s: State, info: BlockInfo, prague: bool, finalized: Option<nat>,
                   changes: seq<StateChange>)
    requires Blocks.Between(s)
    ensures var r := Run(cfg, s.(genesis := true), GenesisEvents(info, prague, finalized, changes));
      && r.Ok? && Blocks.Between(r.value)
      && EmitsGenesis(s.output, r.value.output, info, ApplyAll(EMPTY_LEDGER, changes))
  {
    hide ApplyAll, LedgerOf, Run, Step, Flatten, WorkAfter;
    var s0 := s.(genesis := true);
    var start, txStart, body := BlockStart(info, prague, None, finalized), TxStart(GENESIS_TX, [], false),
                                Flatten(GenesisCall(changes), 0);
    var s1 := StartedGenesis(cfg, s0, info, prague, finalized);
    var rest1 := [txStart] + (Txs(body) + ([TxEnd(Some(GENESIS_RECEIPT))] + [BlockEnd(false)]));
    RunConcat(cfg, s0, [start], rest1);
    Blocks.RunSingle(cfg, s0, start);
    var rest2 := Txs(body) + ([TxEnd(Some(GENESIS_RECEIPT))] + [BlockEnd(false)]);
    RunConcat(cfg, s1, [txStart], rest2);
    Blocks.RunSingle(cfg, s1, txStart);
    var s2 := BegunGenesis(cfg, s1);
    RunConcat(cfg, s2, Txs(body), [TxEnd(Some(GENESIS_RECEIPT))] + [BlockEnd(false)]);
    var s3, c := BodyGenesis(cfg, s2, changes);
    RunConcat(cfg, s3, [TxEnd(Some(GENESIS_RECEIPT))], [BlockEnd(false)]);
    Blocks.RunSingle(cfg, s3, TxEnd(Some(GENESIS_RECEIPT)));
    var s4 := EndedGenesis(cfg, s3, c, changes);
    Blocks.RunSingle(cfg, s4, BlockEnd(false));
    LastGenesis(cfg, s4);
  }

  lemma StartedGenesis(cfg: Config, s: State, info: BlockInfo, prague: bool, finalized: Option<nat>) returns (s1: State)
    requires s == INITIAL.(snapshot := s.snapshot, output := s.output, genesis := true)
    ensures Step(cfg, s, BlockStart(info, prague, None, finalized)) == Ok(s1)
    ensures s1 == s.(block := Some(NewBlock(info)), prague := prague, finality := s1.finality)
  {
    hide StepBlockEnd, StepTxEnd, StepTxStart, StepTx, StepSysStart, StepSysEnd, StepSnapshot, StepTxReset;
    s1 := Step(cfg, s, BlockStart(info, prague, None, finalized)).value;
  }

  lemma BegunGenesis(cfg: Config, s: State) returns (s2: State)
    requires s.block.Some? && s.work == FRESH
    ensures Step(cfg, s, TxStart(GENESIS_TX, [], false)) == Ok(s2)
    ensures s2 == s.(ordinal := s.ordinal + 1, work := FRESH.(trx := Some(NewTx(GENESIS_TX, [], s.ordinal + 1))))
  {
    hide StepBlockStart, StepBlockEnd, StepTxEnd, StepTx, StepSysStart, StepSysEnd, StepSnapshot, StepTxReset;
    assert AuthsOf([]) == [];
    s2 := Step(cfg, s, TxStart(GENESIS_TX, [], false)).value;
  }

  lemma BodyGenesis(cfg: Config, s: State, changes: seq<StateChange>) returns (s3: State, c: CallRec)
    requires s.block.Some? && s.work == FRESH.(trx := Some(NewTx(GENESIS_TX, [], s.ordinal)))
    ensures Run(cfg, s, Txs(Flatten(GenesisCall(changes), 0))) == Ok(s3) && GenesisClosed(c, changes)
    ensures s3 == s.(work := s3.work, ordinal := s3.ordinal)
    ensures s3.work.trx == Some(NewTx(GENESIS_TX, [], s.ordinal).(calls := [c])) && s3.work.deferred == NO_CHANGES
  {
    hide Build, Run, RunWork, GenesisClosed;
    LeavesWellFormed(changes);
    assert WellFormed(GenesisCall(changes), false);
    RunTxs(cfg, s, Flatten(GenesisCall(changes), 0));
    FlattenRuns(CtxOf(s), s.work, s.ordinal, GenesisCall(changes));
    GenesisBuilt(CtxOf(s), changes, s.ordinal);
    var b := Build(CtxOf(s), false, GenesisCall(changes), 0, Outside(NO_CHANGES), Env(s.ordinal, 0, 0, []));
    c := b.pre[0];
    assert b.post == [c] && [] + b.post == b.post;
    s3 := s.(work := WorkAfter(s.work, b), ordinal := b.env.ord);
  }

  lemma EndedGenesis(cfg: Config, s: State, c: CallRec, changes: seq<StateChange>) returns (s4: State)
    requires s.block.Some? && !s.isolated && s.block.value.txs == [] && GenesisClosed(c, changes)
    requires s.work.trx.Some? && s.work.trx.value.calls == [c] && s.work.deferred == NO_CHANGES
    ensures Step(cfg, s, TxEnd(Some(GENESIS_RECEIPT))) == Ok(s4) && s4.block.Some?
    ensures s4 == ResetTransaction(s.(ordinal := s4.ordinal, block := s4.block))
    ensures var b := s4.block.value;
      && b == s.block.value.(txs := b.txs) && |b.txs| == 1 && |b.txs[0].calls| == 1
      && LedgerOf(b.txs[0].calls[0].lists) == ApplyAll(EMPTY_LEDGER, changes)
  {
    hide StepBlockStart, StepBlockEnd, StepTxStart, StepTx, StepSysStart, StepSysEnd, StepSnapshot, StepTxReset;
    hide Complete, ApplyAll, GenesisClosed, LedgerOf;
    GenesisCompletes(cfg, s.work.trx.value, c, changes, s.work.preimages, s.ordinal + 1);
    s4 := Step(cfg, s, TxEnd(Some(GENESIS_RECEIPT))).value;
  }

  lemma LastGenesis(cfg: Config, s: State)
    requires s.block.Some? && s.work.trx.None? && !s.isolated && !s.dropped
    ensures var r := Step(cfg, s, BlockEnd(false));
      r.Ok? && Blocks.Between(r.value) && r.value.output == s.output + [Output(s.block.value, s.finality, s.flash)]
  {
    hide StepBlockStart, StepTxEnd, StepTxStart, StepTx, StepSysStart, StepSysEnd, StepSnapshot, StepTxReset;
  }

  /** Genesis replay. The genesis hook always completes and emits one block whose recorded changes, replayed from
      nothing, are the allocation without its zero balances, zero nonces, empty code and zero storage values;
      and it runs the same whatever order the maps of the allocation are iterated in. Code hashes are taken
      to differ from the zero word. */
  lemma GenesisReplay(cfg: Config, s: State, info: BlockInfo, prague: bool, finalized: Option<nat>,
                      alloc: Alloc, it: Iteration, it': Iteration, hash: Bytes -> Word)
    requires Blocks.Between(s) && IterationOf(it, alloc) && IterationOf(it', alloc) && HashesNonZero(alloc, hash)
    ensures var r := Run(cfg, s.(genesis := true),
                         GenesisEvents(info, prague, finalized, GenesisChanges(it, alloc, hash)));
      && r.Ok? && Blocks.Between(r.value) && EmitsGenesis(s.output, r.value.output, info, Normalised(alloc, alloc.Keys))
      && r == Run(cfg, s.(genesis := true), GenesisEvents(info, prague, finalized, GenesisChanges(it', alloc, hash)))
  {
    hide Run, GenesisEvents, GenesisChanges, Normalised, ApplyAll, IterationOf, EmitsGenesis;
    GenesisRun(cfg, s, info, prague, finalized, GenesisChanges(it, alloc, hash));
    ChangesRebuild(it, alloc, hash);
    IterationOrderIrrelevant(it, it', alloc, hash);
  }
}
