/** What single hooks do, and when they panic, read off their arguments with every constant written out: call entries
    and exits, changes between transactions, the opening and the emission of a block, repeated commits. */
module Hooks {
  import opened Bytes
  import opened Wrappers
  import opened Model
  import opened Sorting
  import opened Completion
  import opened Machine
  import opened Steps
  import opened World
  import opened Reading
  import opened Blocks

  // ---------------------------------------------------------------- call entries and exits

  /** The opcodes that call or create. */
  predicate Entrant(typ: Byte) {
    typ == 0xf0 || typ == 0xf1 || typ == 0xf2 || typ == 0xf4 || typ == 0xf5 || typ == 0xfa
  }

  /** `c` is a call just entered with `f` in state `s`. */
  predicate IsNew(s: State, depth: int, f: Frame, c: CallRec) {
    && c.frame == f && KindIs(f.typ, c.kind)
    && c.index == s.work.index + 1 && c.depth == |s.work.stack| && c.beginOrdinal == s.ordinal + 1
    && c.parentIndex == (if |s.work.stack| == 0 then 0 else s.work.stack[|s.work.stack| - 1].index)
    && (c.delegatesTo == if LooksUp(CtxOf(s), s.work.reader, f) then f.delegation else None)
    && (c.lists == if depth == 0 then s.work.deferred else NO_CHANGES)
    && !c.statusFailed && !c.statusReverted && !c.stateReverted && !c.suicide && !c.executedCode
  }

  /** State `r` is `s` with one more call open, which takes over what was deferred when it is a root call. */
  ghost predicate Opens(s: State, depth: int, f: Frame, r: State) {
    && |r.work.stack| == |s.work.stack| + 1 && r.work.stack[..|s.work.stack|] == s.work.stack
    && IsNew(s, depth, f, r.work.stack[|s.work.stack|])
    && r.work == s.work.(stack := r.work.stack, index := s.work.index + 1,
                         deferred := if depth == 0 then NO_CHANGES else s.work.deferred)
    && r == s.(work := r.work, ordinal := s.ordinal + 1)
  }

  /** In whatever state, an entry goes through exactly for the six opcodes that call or create and for SELFDESTRUCT.
      SELFDESTRUCT only makes the next exit pass by; the others open a call. */
  lemma EntryTold(s: State, depth: int, f: Frame)
    ensures var r := StepTx(s, Enter(depth, f));
      && (r.Ok? <==> Entrant(f.typ) || f.typ == 0xff)
      && (Entrant(f.typ) ==> Opens(s, depth, f, r.value))
      && (f.typ == 0xff ==> r.value == s.(work := s.work.(suicided := true)))
  {
    hide Opens;
    if Entrant(f.typ) {
      CallOpens(s, depth, f);
    }
  }

  lemma CallOpens(s: State, depth: int, f: Frame)
    requires Entrant(f.typ)
    ensures StepTx(s, Enter(depth, f)).Ok? && Opens(s, depth, f, StepTx(s, Enter(depth, f)).value)
  {
    hide KindOf, KindIs, DelegationOf, LooksUp;
    KindsTold(f.typ);
    DelegationTold(CtxOf(s), s.work.reader, f);
  }

  lemma DelegationTold(ctx: Ctx, reader: bool, f: Frame)
    requires Entrant(f.typ)
    ensures DelegationOf(ctx, reader, f) == if LooksUp(ctx, reader, f) then f.delegation else None
  {
    KindsTold(f.typ);
    hide KindOf;
  }

  lemma KindsTold(typ: Byte)
    ensures KindOf(typ) != Unspecified <==> Entrant(typ)
    ensures Entrant(typ) ==> KindIs(typ, KindOf(typ))
    ensures KindOf(typ) == Create <==> typ == 0xf0 || typ == 0xf5
  {
  }

  /** `c` is the open call `top` after its exit. */
  ghost predicate IsClosed(top: CallRec, x: Exit, end: nat, c: CallRec) {
    && c == top.(endOrdinal := end, gasConsumed := x.gasUsed, returnData := c.returnData,
                 statusFailed := c.statusFailed, statusReverted := c.statusReverted, failureReason := c.failureReason)
    && c.returnData == (if top.kind.Create? then top.returnData else x.output)
    && c.statusFailed == (x.reverted || top.statusFailed)
    && c.statusReverted == (if x.reverted then Gasless(x.err) else top.statusReverted)
    && c.failureReason == if !x.reverted then top.failureReason else if |x.err| > 0 then x.err[0] else ""
  }

  /** An exit goes through exactly when it belongs to a SELFDESTRUCT, which it ends, or a call of a transaction is open,
      which it closes and files behind those closed before. */
  lemma ExitTold(s: State, x: Exit)
    ensures var r, n := StepTx(s, Leave(x)), |s.work.stack|;
      && (r.Ok? <==> s.work.suicided || (s.block.Some? && s.work.trx.Some? && n > 0))
      && (s.work.suicided ==> r.value == s.(work := s.work.(suicided := false)))
      && (r.Ok? && !s.work.suicided ==>
            var trx, trx' := s.work.trx.value, r.value.work.trx;
            && trx'.Some? && |trx'.value.calls| == |trx.calls| + 1
            && trx'.value == trx.(calls := trx.calls + [trx'.value.calls[|trx.calls|]])
            && IsClosed(s.work.stack[n - 1], x, s.ordinal + 1, trx'.value.calls[|trx.calls|])
            && r.value == s.(work := s.work.(stack := s.work.stack[..n - 1], trx := trx'), ordinal := s.ordinal + 1))
  {
    hide Gasless;
    ErrorsAreGasless(x.err);
    hide CostsNoGas;
  }

  lemma ErrorsAreGasless(err: seq<string>)
    ensures CostsNoGas(err) <==> Gasless(err)
  {
  }

  // ---------------------------------------------------------------- panics

  /** The change is one that counts: to another value, and for balances with a known reason. */
  predicate ChangesSomething(b: StateChange) {
    match b
    case Balance(_, before, after, reason) => before != after && reason != 0
    case Nonce(_, before, after) => before != after
    case Code(_, before, after, _, _) => before != after
    case Storage(_, _, before, after) => before != after
  }

  /** Nonces and storage change in transactions of a block only; balances and code also in a block between
      transactions, and in a transaction without a block. */
  predicate Misplaced(b: StateChange, inBlock: bool, inTx: bool) {
    if b.Nonce? || b.Storage? then !inBlock || !inTx else !inBlock && !inTx
  }

  predicate Panicking(s: State, e: TxEvent) {
    match e
    case Enter(_, f) => !Entrant(f.typ) && f.typ != 0xff
    case Leave(_) => !s.work.suicided && (s.block.None? || s.work.trx.None? || |s.work.stack| == 0)
    case Changed(b) => ChangesSomething(b) && Misplaced(b, s.block.Some?, s.work.trx.Some?)
    case Emit(_, _) => s.block.None? || s.work.trx.None?
    case Keccak(_, _) => s.block.None? || s.work.trx.None? || |s.work.stack| == 0
    case Opcode(_, _) => false
    case OpcodeFault => false
  }

  lemma HookPanics(s: State, e: TxEvent)
    ensures StepTx(s, e).Panic? <==> Panicking(s, e)
  {
    hide AddTo, AddBlockChange, LeafOnCall, LeafOutside, Closed, NewCall, DelegationOf;
  }

  /** The hooks around transactions and blocks, in every state. A transaction starts in an open block, when neither
      another one nor a system call is under way and no call is open; a block cannot end without error inside either; a
      system call starts in an open block, but not within another one, and ends when it is under way and no log and no
      storage change waits for a call; ending a transaction needs one, a reset an isolated tracer, and a snapshot of a
      flash block an open one. */
  lemma BoundariesPanic(cfg: Config, s: State, tx: TxInfo, signers: seq<(Bytes, nat)>, reader: bool,
                        receipt: Option<Receipt>)
    ensures Step(cfg, s, TxStart(tx, signers, reader)).Ok? <==> s.block.Some? && s.work.trx.None? && s.work.stack == []
    ensures Step(cfg, s, BlockEnd(false)).Ok? <==> s.block.Some? && s.work.trx.None?
    ensures Step(cfg, s, SysStart).Ok? <==> s.block.Some? && !(s.inSystemCall && s.work.trx.Some?)
    ensures Step(cfg, s, SysEnd).Ok? <==> s.block.Some? && s.work.trx.Some? && s.inSystemCall
                                          && s.work.deferred.logs == [] && s.work.deferred.storage == []
    ensures Step(cfg, s, TxEnd(receipt)).Ok? ==> s.block.Some? && s.work.trx.Some?
    ensures receipt.None? && cfg.dropWithoutReceipt && s.block.Some? && s.work.trx.Some? ==>
      Step(cfg, s, TxEnd(receipt)).Ok?
    ensures Step(cfg, s, TxReset).Ok? <==> s.isolated
    ensures Step(cfg, s, TakeSnapshot).Ok? <==> s.flash.None? || s.block.Some?
  {
    hide AuthsOf, Complete, Attach;
  }

  // ---------------------------------------------------------------- changes between transactions

  /** `x` are changes with the given bodies, in order of strictly increasing ordinals above `lo` and up to `hi`. */
  ghost predicate Added(x: seq<Change>, bodies: seq<Body>, lo: nat, hi: nat) {
    && BodiesAre(x, bodies) && StrictlyOrdered(ChangeOrdinal, x)
    && forall i :: 0 <= i < |x| ==> lo < x[i].ordinal <= hi
  }

  /** `r` is `s` with the given changes added to its block: exactly the counting balance and code changes of `es`, each
      under an ordinal of its own. */
  ghost predicate Recording(s: State, es: seq<TxEvent>, balances: seq<Change>, codes: seq<Change>, r: State)
    requires s.block.Some?
  {
    var b := s.block.value;
    && r == s.(ordinal := s.ordinal + |balances| + |codes|,
               block := Some(b.(balanceChanges := b.balanceChanges + balances, codeChanges := b.codeChanges + codes)))
    && Added(balances, BalancesIn(es), s.ordinal, r.ordinal) && Added(codes, CodesIn(es, false), s.ordinal, r.ordinal)
    && forall i, j :: 0 <= i < |balances| && 0 <= j < |codes| ==> balances[i].ordinal != codes[j].ordinal
  }

  predicate Changes(es: seq<TxEvent>) { forall i :: 0 <= i < |es| ==> es[i].Changed? }

  /** Changes reported in a block between transactions are accepted exactly when no nonce and no storage slot changes,
      and then are in the block, in the order of the reports. */
  lemma {:induction false} BetweenTransactions(cfg: Config, s: State, es: seq<TxEvent>)
      returns (balances: seq<Change>, codes: seq<Change>)
    requires s.block.Some? && s.work.trx.None? && Changes(es)
    ensures var r := Run(cfg, s, Txs(es));
      && (r.Ok? <==> NoncesIn(es) == [] && StoragesIn(es) == [])
      && (r.Ok? ==> Recording(s, es, balances, codes, r.value))
    decreases |es|
  {
    hide Step, Recording, BalancesIn, CodesIn;
    balances, codes := [], [];
    if |es| == 0 {
      NothingAdded(s);
    } else {
      var n := |es| - 1;
      var front, e := es[..n], es[n];
      balances, codes := BetweenTransactions(cfg, s, front);
      assert Txs(es) == Txs(front) + [Tx(e)];
      RunConcat(cfg, s, Txs(front), [Tx(e)]);
      var r := Run(cfg, s, Txs(front));
      if r.Ok? {
        RunSingle(cfg, r.value, Tx(e));
        balances, codes := OneMoreAdded(cfg, s, es, balances, codes, r.value);
      }
    }
  }

  lemma NothingAdded(s: State)
    requires s.block.Some?
    ensures Recording(s, [], [], [], s)
  {
    var b := s.block.value;
    assert b.balanceChanges + [] == b.balanceChanges && b.codeChanges + [] == b.codeChanges;
  }

  lemma OneMoreAdded(cfg: Config, s: State, es: seq<TxEvent>, balances: seq<Change>, codes: seq<Change>, r: State)
      returns (balances': seq<Change>, codes': seq<Change>)
    requires s.block.Some? && s.work.trx.None? && |es| > 0 && es[|es| - 1].Changed?
    requires Recording(s, es[..|es| - 1], balances, codes, r)
    ensures var e := es[|es| - 1];
      && (Step(cfg, r, Tx(e)).Ok? <==> !(ChangesSomething(e.change) && (e.change.Nonce? || e.change.Storage?)))
      && (Step(cfg, r, Tx(e)).Ok? ==> Recording(s, es, balances', codes', Step(cfg, r, Tx(e)).value))
  {
    hide StepTx, Recording, AddBlockChange, Added, BalancesIn, CodesIn;
    var b := es[|es| - 1].change;
    balances', codes' := balances, codes;
    ChangeCases(r, b);
    assert r.work == s.work && r.block.Some? by { SameElsewhere(s, es[..|es| - 1], balances, codes, r); }
    if !ChangesSomething(b) {
      UncountedAdded(s, es, balances, codes, r);
    } else if b.Balance? {
      balances' := balances + [Change(r.ordinal + 1, b)];
      BalanceAdded(s, es, balances, codes, r);
    } else if b.Code? {
      codes' := codes + [Change(r.ordinal + 1, b)];
      CodeAdded(s, es, balances, codes, r);
    }
  }

  lemma SameElsewhere(s: State, es: seq<TxEvent>, balances: seq<Change>, codes: seq<Change>, r: State)
    requires s.block.Some? && Recording(s, es, balances, codes, r)
    ensures r.work == s.work && r.block.Some?
  {
    hide Added;
  }

  lemma UncountedAdded(s: State, es: seq<TxEvent>, balances: seq<Change>, codes: seq<Change>, r: State)
    requires s.block.Some? && |es| > 0 && Recording(s, es[..|es| - 1], balances, codes, r)
    requires es[|es| - 1].Changed? && !ChangesSomething(es[|es| - 1].change)
    ensures Recording(s, es, balances, codes, r)
  {
    Counting(es);
    hide Added, BalancesIn, CodesIn;
  }

  lemma BalanceAdded(s: State, es: seq<TxEvent>, balances: seq<Change>, codes: seq<Change>, r: State)
    requires s.block.Some? && |es| > 0 && Recording(s, es[..|es| - 1], balances, codes, r) && r.block.Some?
    requires es[|es| - 1].Changed? && es[|es| - 1].change.Balance? && ChangesSomething(es[|es| - 1].change)
    ensures var next := Change(r.ordinal + 1, es[|es| - 1].change);
      Recording(s, es, balances + [next], codes,
                r.(ordinal := r.ordinal + 1, block := Some(AddBlockChange(r.block.value, next))))
  {
    hide Added;
    var front, b := es[..|es| - 1], es[|es| - 1].change;
    Counting(es);
    InOrder(balances, BalancesIn(front), s.ordinal, r.ordinal, b);
    InOrder(codes, CodesIn(front, false), s.ordinal, r.ordinal, b);
    assert s.block.value.balanceChanges + (balances + [Change(r.ordinal + 1, b)])
        == r.block.value.balanceChanges + [Change(r.ordinal + 1, b)];
    hide BalancesIn, CodesIn;
  }

  lemma CodeAdded(s: State, es: seq<TxEvent>, balances: seq<Change>, codes: seq<Change>, r: State)
    requires s.block.Some? && |es| > 0 && Recording(s, es[..|es| - 1], balances, codes, r) && r.block.Some?
    requires es[|es| - 1].Changed? && es[|es| - 1].change.Code? && ChangesSomething(es[|es| - 1].change)
    ensures var next := Change(r.ordinal + 1, es[|es| - 1].change);
      Recording(s, es, balances, codes + [next],
                r.(ordinal := r.ordinal + 1, block := Some(AddBlockChange(r.block.value, next))))
  {
    hide Added;
    var front, b := es[..|es| - 1], es[|es| - 1].change;
    Counting(es);
    InOrder(balances, BalancesIn(front), s.ordinal, r.ordinal, b);
    InOrder(codes, CodesIn(front, false), s.ordinal, r.ordinal, b);
    assert s.block.value.codeChanges + (codes + [Change(r.ordinal + 1, b)])
        == r.block.value.codeChanges + [Change(r.ordinal + 1, b)];
    hide BalancesIn, CodesIn;
  }

  /** What one more change adds to the balance and code changes reported. */
  lemma Counting(es: seq<TxEvent>)
    requires |es| > 0 && es[|es| - 1].Changed?
    ensures var front, b := es[..|es| - 1], es[|es| - 1].change;
      && BalancesIn(es) == BalancesIn(front) + (if b.Balance? && ChangesSomething(b) then [b] else [])
      && CodesIn(es, false) == CodesIn(front, false) + (if b.Code? && ChangesSomething(b) then [b] else [])
  {
    hide Destructs;
  }

  /** One more change behind others. */
  lemma InOrder(x: seq<Change>, bodies: seq<Body>, lo: nat, hi: nat, b: Body)
    requires Added(x, bodies, lo, hi) && lo <= hi
    ensures Added(x + [Change(hi + 1, b)], bodies + [b], lo, hi + 1)
    ensures Added(x, bodies, lo, hi + 1) && forall i :: 0 <= i < |x| ==> x[i].ordinal <= hi
    ensures x + [] == x && bodies + [] == bodies
  {
  }

  // ---------------------------------------------------------------- blocks

  /** A block opened between blocks is empty, with its ordinals counted from zero. */
  lemma BlockOpens(cfg: Config, s: State, info: BlockInfo, prague: bool, finalized: Option<nat>)
    requires Between(s)
    ensures var r := Step(cfg, s, BlockStart(info, prague, None, finalized));
      && r.Ok? && r.value.block == Some(Block(info, [], [], [], [])) && r.value.ordinal == 0
      && r.value.prague == prague && r.value.finality == (if finalized.Some? then finalized.value else 0)
      && r.value == s.(block := r.value.block, prague := prague, finality := r.value.finality)
  {
  }

  predicate WithinBlock(es: seq<Event>) { forall i :: 0 <= i < |es| ==> !es[i].BlockStart? && !es[i].BlockEnd? }

  /** What is written when the block ends is settled at its start. */
  ghost predicate HeadKept(s: State, r: State) {
    && r.flash == s.flash && r.output == s.output && r.finality == s.finality && r.prague == s.prague
    && s.block.Some? == r.block.Some? && (s.block.Some? ==> r.block.value.info == s.block.value.info)
  }

  lemma StepKeepsHead(cfg: Config, s: State, e: Event)
    requires !e.BlockStart? && !e.BlockEnd? && Step(cfg, s, e).Ok?
    ensures HeadKept(s, Step(cfg, s, e).value)
  {
    hide Complete, Attach, AuthsOf, StepWork, StepTxEnd, StepSysStart, StepSysEnd, StepTx, HeadKept;
    match e
    case TxEnd(receipt) => TxEndKeepsHead(cfg, s, receipt);
    case Tx(e) => TxKeepsHead(s, e);
    case _ => OthersKeepHead(cfg, s, e);
  }

  lemma TxEndKeepsHead(cfg: Config, s: State, receipt: Option<Receipt>)
    ensures StepTxEnd(cfg, s, receipt).Ok? ==> HeadKept(s, StepTxEnd(cfg, s, receipt).value)
  {
    hide Complete;
  }

  lemma TxKeepsHead(s: State, e: TxEvent)
    ensures StepTx(s, e).Ok? ==> HeadKept(s, StepTx(s, e).value)
  {
    hide StepWork;
  }

  lemma OthersKeepHead(cfg: Config, s: State, e: Event)
    requires e.TxStart? || e.TxReset? || e.SysStart? || e.SysEnd? || e.TakeSnapshot?
    ensures Step(cfg, s, e).Ok? ==> HeadKept(s, Step(cfg, s, e).value)
  {
    hide Attach, AuthsOf, StepTxEnd, StepTx;
  }

  lemma {:induction false} RunKeepsHead(cfg: Config, s: State, es: seq<Event>)
    requires WithinBlock(es) && Run(cfg, s, es).Ok?
    ensures HeadKept(s, Run(cfg, s, es).value)
    decreases |es|
  {
    hide Step;
    if |es| > 0 {
      StepKeepsHead(cfg, s, es[0]);
      RunKeepsHead(cfg, Step(cfg, s, es[0]).value, es[1..]);
    }
  }

  /** Whatever happens within a block that starts between blocks, its end emits exactly one block, as traced by then,
      with the number and hash, the finality and the flash data of its start; with an error nothing is emitted. */
  lemma BlockEmitted(cfg: Config, s: State, info: BlockInfo, prague: bool, flash: Option<Flash>, finalized: Option<nat>,
                     es: seq<Event>, failed: bool)
    requires Between(s) && WithinBlock(es)
    ensures var start := [BlockStart(info, prague, flash, finalized)];
      var before, r := Run(cfg, s, start + es), Run(cfg, s, start + es + [BlockEnd(failed)]);
      r.Ok? ==> && before.Ok? && before.value.block.Some? && before.value.block.value.info == info
                && r.value.output == s.output + if failed then [] else [Output(before.value.block.value,
                     if finalized.Some? then finalized.value else 0, flash)]
  {
    hide Run, StepTxEnd;
    var start, end := [BlockStart(info, prague, flash, finalized)], [BlockEnd(failed)];
    RunConcat(cfg, s, start + es, end);
    RunConcat(cfg, s, start, es);
    RunSingle(cfg, s, start[0]);
    var r1 := Step(cfg, s, start[0]);
    if r1.Ok? {
      var r2 := Run(cfg, r1.value, es);
      if r2.Ok? {
        RunKeepsHead(cfg, r1.value, es);
        RunSingle(cfg, r2.value, end[0]);
      }
    }
  }

  // ---------------------------------------------------------------- repeated commits

  predicate LeavesAlone(id: nat, actions: seq<Action>) {
    forall i :: 0 <= i < |actions| ==> !(actions[i].OnIso? && actions[i].id == id)
  }

  /** Tracer `id`, if it is still there, has nothing to commit. */
  predicate NothingToCommit(w: World, id: nat) {
    id in w.iso ==> !w.iso[id].dropped && (!w.iso[id].ended || w.iso[id].work.trx.None?)
  }

  lemma {:induction false} StillNothing(cfg: Config, w: World, id: nat, actions: seq<Action>)
    requires NothingToCommit(w, id) && LeavesAlone(id, actions) && RunWorld(cfg, w, actions).Ok?
    ensures NothingToCommit(RunWorld(cfg, w, actions).value, id)
    decreases |actions|
  {
    hide Step;
    if |actions| > 0 {
      StillNothing(cfg, StepWorld(cfg, w, actions[0]).value, id, actions[1..]);
    }
  }

  /** A transaction is committed once: unless its tracer is told something more, later commits change nothing. */
  lemma CommittedOnce(cfg: Config, w: World, id: nat, actions: seq<Action>)
    requires id in w.iso && !w.iso[id].dropped && LeavesAlone(id, actions)
    ensures var r := RunWorld(cfg, w, [Commit(id)] + actions);
      r.Ok? && id in r.value.iso ==> StepCommit(r.value, id) == Ok(r.value)
  {
    hide Step;
    assert ([Commit(id)] + actions)[1..] == actions;
    var r := StepCommit(w, id);
    if r.Ok? {
      assert NothingToCommit(r.value, id);
      if RunWorld(cfg, r.value, actions).Ok? {
        StillNothing(cfg, r.value, id, actions);
      }
    }
  }
}
