/** The tracer as a state machine: one function per hook, panics as failed steps (tracer.go). */
module Machine {
  import opened Bytes
  import opened Wrappers
  import opened Model
  import opened Completion
  import KeccakFilter

  // ---------------------------------------------------------------- inside a transaction

  /** The events that can happen inside a transaction or a system call. */
  datatype TxEvent =
    | Enter(depth: int, frame: Frame)
    | Leave(exit: Exit)
    | Changed(change: StateChange)
    | Emit(log: LogData, blockIndex: nat)
    | Opcode(op: Byte, failed: bool)
    | OpcodeFault
    | Keccak(hash: Word, preimage: Bytes)

  predicate IsLeaf(e: TxEvent) { !e.Enter? && !e.Leave? }

  /** Everything that belongs to the current transaction or system call, which an interruption sets
      aside. `stack` holds the open calls, outermost first; `index` counts calls; `suicided` means that
      the next call exit belongs to a SELFDESTRUCT and is skipped. */
  datatype Work = Work(
    trx: Option<TxTrace>, logIndex: nat, reader: bool, preimages: seq<Recorded>,
    stack: seq<CallRec>, index: nat, deferred: Lists, suicided: bool)

  const FRESH := Work(None, 0, false, [], [], 0, NO_CHANGES, false)

  /** What an in-transaction event needs to know about the tracer around it. */
  datatype Ctx = Ctx(inBlock: bool, prague: bool, system: bool, genesis: bool)

  function Top(stack: seq<CallRec>): Option<CallRec> {
    if |stack| == 0 then None else Some(stack[|stack| - 1])
  }

  function TopIndex(stack: seq<CallRec>): nat {
    if |stack| == 0 then 0 else stack[|stack| - 1].index
  }

  function ReplaceTop(stack: seq<CallRec>, c: CallRec): seq<CallRec>
    requires |stack| > 0
  {
    stack[..|stack| - 1] + [c]
  }

  /** A code removal by a call that executed SELFDESTRUCT is not recorded. */
  predicate IgnoredAfterSuicide(b: StateChange, c: CallRec) {
    b.Code? && c.suicide && |b.oldCode| > 0 && |b.newCode| == 0
  }

  predicate Records(e: TxEvent, top: Option<CallRec>) {
    match e
    case Changed(b) => !IsNoOp(b) && !(top.Some? && IgnoredAfterSuicide(b, top.value))
    case Emit(_, _) => true
    case _ => false
  }

  function RecordOf(e: TxEvent, ordinal: nat, logIndex: nat): Change
    requires e.Changed? || e.Emit?
  {
    match e
    case Changed(b) => Change(ordinal, b)
    case Emit(log, blockIndex) => Change(ordinal, Log(log, logIndex, blockIndex))
  }

  function LeafOnCall(c: CallRec, e: TxEvent, ord: nat, logIndex: nat): CallRec {
    if Records(e, Some(c)) then c.(lists := AddTo(c.lists, RecordOf(e, ord + 1, logIndex)))
    else match e
      case Opcode(op, failed) => c.(executedCode := true, suicide := c.suicide || (!failed && op == 0xff))
      case OpcodeFault => c.(executedCode := true)
      case _ => c
  }

  function LeafOutside(d: Lists, e: TxEvent, ord: nat, logIndex: nat): Lists {
    if Records(e, None) then AddTo(d, RecordOf(e, ord + 1, logIndex)) else d
  }

  function NextOrdinal(e: TxEvent, top: Option<CallRec>, ord: nat): nat {
    if Records(e, top) then ord + 1 else ord
  }

  function NextLogIndex(e: TxEvent, logIndex: nat): nat {
    if e.Emit? then logIndex + 1 else logIndex
  }

  const MAX_PREIMAGE := 256

  function NextPreimages(e: TxEvent, top: Option<CallRec>, preimages: seq<Recorded>): seq<Recorded> {
    if e.Keccak? && top.Some? && |e.preimage| <= MAX_PREIMAGE
    then preimages + [KeccakFilter.Recorded(top.value.index, e.hash, e.preimage)]
    else preimages
  }

  predicate LeafPanics(ctx: Ctx, w: Work, e: TxEvent) {
    match e
    case Changed(b) => !IsNoOp(b) && (w.trx.None? || (!ctx.inBlock && (b.Nonce? || b.Storage?)))
    case Emit(_, _) => w.trx.None? || !ctx.inBlock
    case Keccak(_, _) => w.trx.None? || !ctx.inBlock || |w.stack| == 0
    case _ => false
  }

  function StepLeaf(ctx: Ctx, w: Work, ord: nat, e: TxEvent): Result<(Work, nat)> {
    if LeafPanics(ctx, w, e) then Panic
    else
      var top := Top(w.stack);
      var w1 := w.(logIndex := NextLogIndex(e, w.logIndex), preimages := NextPreimages(e, top, w.preimages));
      Ok((if top.Some? then w1.(stack := ReplaceTop(w.stack, LeafOnCall(top.value, e, ord, w.logIndex)))
          else w1.(deferred := LeafOutside(w.deferred, e, ord, w.logIndex)),
          NextOrdinal(e, top, ord)))
  }

  function DelegationOf(ctx: Ctx, reader: bool, f: Frame): Option<Bytes> {
    if ctx.prague && !ctx.system && !ctx.genesis && KindOf(f.typ) != Create && reader then f.delegation else None
  }

  function StepEnter(ctx: Ctx, w: Work, ord: nat, depth: int, f: Frame): Result<(Work, nat)> {
    if f.typ == SELFDESTRUCT then Ok((w.(suicided := true), ord))
    else if KindOf(f.typ) == Unspecified then Panic
    else
      var c := NewCall(f, DelegationOf(ctx, w.reader, f), ord + 1, if depth == 0 then w.deferred else NO_CHANGES);
      Ok((w.(stack := w.stack + [Numbered(c, w.index + 1, |w.stack|, TopIndex(w.stack))],
             index := w.index + 1,
             deferred := if depth == 0 then NO_CHANGES else w.deferred),
          ord + 1))
  }

  function StepLeave(ctx: Ctx, w: Work, ord: nat, x: Exit): Result<(Work, nat)> {
    if w.suicided then Ok((w.(suicided := false), ord))
    else if w.trx.None? || !ctx.inBlock || |w.stack| == 0 then Panic
    else
      var closed := Closed(w.stack[|w.stack| - 1], x, ord + 1);
      var trx := w.trx.value;
      Ok((w.(stack := w.stack[..|w.stack| - 1], trx := Some(trx.(calls := trx.calls + [closed]))), ord + 1))
  }

  function StepWork(ctx: Ctx, w: Work, ord: nat, e: TxEvent): Result<(Work, nat)> {
    match e
    case Enter(depth, f) => StepEnter(ctx, w, ord, depth, f)
    case Leave(x) => StepLeave(ctx, w, ord, x)
    case _ => StepLeaf(ctx, w, ord, e)
  }

  function RunWork(ctx: Ctx, w: Work, ord: nat, es: seq<TxEvent>): Result<(Work, nat)>
    decreases |es|
  {
    if |es| == 0 then Ok((w, ord))
    else
      var r :- StepWork(ctx, w, ord, es[0]);
      RunWork(ctx, r.0, r.1, es[1..])
  }

  lemma {:induction false} RunWorkConcat(ctx: Ctx, w: Work, ord: nat, a: seq<TxEvent>, b: seq<TxEvent>)
    ensures RunWork(ctx, w, ord, a + b)
         == match RunWork(ctx, w, ord, a)
            case Panic => Panic
            case Ok(r) => RunWork(ctx, r.0, r.1, b)
    decreases |a|
  {
    hide StepWork;
    if |a| == 0 {
      assert a + b == b;
    } else {
      assert (a + b)[1..] == a[1..] + b;
      var r := StepWork(ctx, w, ord, a[0]);
      if r.Ok? {
        RunWorkConcat(ctx, r.value.0, r.value.1, a[1..], b);
      }
    }
  }

  // ---------------------------------------------------------------- the tracer

  datatype Flash = Flash(idx: nat, isFinal: bool)

  /** What the next flash-block iteration starts from. */
  datatype Snapshot = Snapshot(number: nat, txs: seq<TxTrace>, systemCalls: seq<CallRec>,
                               balanceChanges: seq<Change>, codeChanges: seq<Change>,
                               ordinal: nat, flashIndex: nat)

  /** A block handed to the output, with the context captured for its line. */
  datatype Output = Output(block: Block, finality: nat, flash: Option<Flash>)

  datatype State = State(
    block: Option<Block>, prague: bool, genesis: bool, finality: nat, ordinal: nat,
    work: Work, inSystemCall: bool, saved: Option<Work>,
    isolated: bool, ended: bool, dropped: bool,
    flash: Option<Flash>, snapshot: Option<Snapshot>, output: seq<Output>)

  const INITIAL := State(None, false, false, 0, 0, FRESH, false, None, false, false, false, None, None, [])

  datatype Event =
    | BlockStart(info: BlockInfo, prague: bool, flash: Option<Flash>, finalized: Option<nat>)
    | BlockEnd(failed: bool)
    | TxStart(tx: TxInfo, signers: seq<(Bytes, nat)>, reader: bool)
    | TxEnd(receipt: Option<Receipt>)
    | TxReset
    | SysStart
    | SysEnd
    | TakeSnapshot
    | Tx(e: TxEvent)

  /** The events of transactions and system calls, and changes between them. */
  predicate Inner(e: Event) { !e.BlockStart? && !e.BlockEnd? && !e.TakeSnapshot? }

  function CtxOf(s: State): Ctx { Ctx(s.block.Some?, s.prague, s.inSystemCall, s.genesis) }

  function ResetTransaction(s: State): State {
    s.(work := FRESH, inSystemCall := false, ended := false)
  }

  function ResetBlock(s: State): State {
    s.(block := None, ordinal := 0, finality := 0, prague := false, genesis := false, saved := None, flash := None)
  }

  function NewBlock(info: BlockInfo): Block { Block(info, [], [], [], []) }

  function Restored(b: Block, snap: Snapshot): Block {
    b.(txs := b.txs + snap.txs, systemCalls := b.systemCalls + snap.systemCalls,
       balanceChanges := b.balanceChanges + snap.balanceChanges, codeChanges := b.codeChanges + snap.codeChanges)
  }

  /** The snapshot left standing when a flash iteration of block `number` starts; `Panic` when its index
      does not advance. */
  function CheckedSnapshot(snapshot: Option<Snapshot>, flash: Flash, number: nat): Result<Option<Snapshot>> {
    if snapshot.None? || snapshot.value.number != number then Ok(None)
    else if flash.idx <= snapshot.value.flashIndex then Panic
    else Ok(snapshot)
  }

  function StepBlockStart(s: State, info: BlockInfo, prague: bool, flash: Option<Flash>,
                          finalized: Option<nat>): Result<State> {
    var snapshot :- if flash.Some? then CheckedSnapshot(s.snapshot, flash.value, info.number) else Ok(s.snapshot);
    var s1 := s.(snapshot := snapshot, flash := if flash.Some? then flash else s.flash, prague := prague,
                 finality := if finalized.Some? then finalized.value else s.finality);
    if s1.flash.Some? && snapshot.Some?
    then Ok(s1.(block := Some(Restored(NewBlock(info), snapshot.value)), ordinal := snapshot.value.ordinal))
    else Ok(s1.(block := Some(NewBlock(info))))
  }

  function StepBlockEnd(s: State, failed: bool): Result<State> {
    if s.block.None? || (!failed && s.work.trx.Some?) then Panic
    else
      var s1 := if failed then s.(snapshot := if s.flash.Some? then None else s.snapshot)
                else s.(output := s.output + [Output(s.block.value, s.finality, s.flash)]);
      Ok(ResetTransaction(ResetBlock(s1)))
  }

  /** Authorizations with the recovered signer; a failed recovery leaves it empty and discards. */
  function AuthsOf(signers: seq<(Bytes, nat)>): seq<Auth> {
    seq(|signers|, i requires 0 <= i < |signers| => Auth(signers[i].0, signers[i].1, |signers[i].0| == 0))
  }

  function StepTxStart(s: State, info: TxInfo, signers: seq<(Bytes, nat)>, reader: bool): Result<State> {
    if s.block.None? || s.work.trx.Some? || |s.work.stack| > 0 then Panic
    else
      Ok(s.(ordinal := s.ordinal + 1,
            work := s.work.(trx := Some(NewTx(info, AuthsOf(signers), s.ordinal + 1)), reader := reader)))
  }

  ghost function StepTxEnd(cfg: Config, s: State, receipt: Option<Receipt>): Result<State> {
    if s.block.None? || s.work.trx.None? then Panic
    else if receipt.None? && cfg.dropWithoutReceipt then
      Ok(if s.isolated then s.(dropped := true) else ResetTransaction(s))
    else
      var trx := s.work.trx.value;
      var done :- Complete(cfg, trx, s.work.deferred, s.work.preimages, receipt, s.ordinal + 1);
      var s1 := s.(ordinal := s.ordinal + 1);
      Ok(if s.isolated then
           var w := s.work.(trx := Some(done));
           s1.(ended := true, work := if |trx.calls| == 0 then w else w.(deferred := NO_CHANGES, preimages := []))
         else ResetTransaction(s1.(block := Some(AddTx(s.block.value, done)))))
  }

  function AddTx(b: Block, trx: TxTrace): Block { b.(txs := b.txs + [trx]) }

  function StepTxReset(s: State): Result<State> {
    if !s.isolated then Panic
    else Ok(s.(work := FRESH.(preimages := s.work.preimages), ended := false, dropped := false, ordinal := 0))
  }

  function StepSysStart(s: State): Result<State> {
    if s.block.None? || (s.work.trx.Some? && s.inSystemCall) then Panic
    else
      var s1 := if s.work.trx.Some? then ResetTransaction(s).(saved := Some(s.work)) else s;
      Ok(s1.(inSystemCall := true, work := s1.work.(trx := Some(SYSTEM_TX))))
  }

  ghost function StepSysEnd(s: State): Result<State> {
    if s.block.None? || s.work.trx.None? || !s.inSystemCall || HasCallOnlyChanges(s.work.deferred) then Panic
    else
      var calls := Attach(s.work.trx.value.calls, s.work.preimages);
      var s1 := ResetTransaction(s.(block := Some(AddSystemCalls(s.block.value, calls))));
      Ok(if s.saved.Some? then s1.(work := s.saved.value, saved := None) else s1)
  }

  function AddSystemCalls(b: Block, calls: seq<CallRec>): Block { b.(systemCalls := b.systemCalls + calls) }

  function StepSnapshot(s: State): Result<State> {
    if s.flash.None? then Ok(s)
    else if s.block.None? then Panic
    else
      var b := s.block.value;
      Ok(s.(snapshot := Some(Snapshot(b.info.number, b.txs, b.systemCalls, b.balanceChanges, b.codeChanges,
                                      s.ordinal, s.flash.value.idx))))
  }

  /** Balance and code changes outside any transaction are block-level. */
  predicate BlockLevel(s: State, e: TxEvent) {
    e.Changed? && !IsNoOp(e.change) && s.work.trx.None? && s.block.Some? && (e.change.Balance? || e.change.Code?)
  }

  function AddBlockChange(b: Block, c: Change): Block {
    if c.body.Balance? then b.(balanceChanges := b.balanceChanges + [c])
    else b.(codeChanges := b.codeChanges + [c])
  }

  function StepTx(s: State, e: TxEvent): Result<State> {
    if BlockLevel(s, e) then
      Ok(s.(ordinal := s.ordinal + 1,
            block := Some(AddBlockChange(s.block.value, Change(s.ordinal + 1, e.change)))))
    else
      var r :- StepWork(CtxOf(s), s.work, s.ordinal, e);
      Ok(s.(work := r.0, ordinal := r.1))
  }

  ghost function Step(cfg: Config, s: State, e: Event): Result<State> {
    match e
    case BlockStart(info, prague, flash, finalized) => StepBlockStart(s, info, prague, flash, finalized)
    case BlockEnd(failed) => StepBlockEnd(s, failed)
    case TxStart(tx, signers, reader) => StepTxStart(s, tx, signers, reader)
    case TxEnd(receipt) => StepTxEnd(cfg, s, receipt)
    case TxReset => StepTxReset(s)
    case SysStart => StepSysStart(s)
    case SysEnd => StepSysEnd(s)
    case TakeSnapshot => StepSnapshot(s)
    case Tx(e) => StepTx(s, e)
  }

  ghost function Run(cfg: Config, s: State, es: seq<Event>): Result<State>
    decreases |es|
  {
    if |es| == 0 then Ok(s)
    else
      var s1 :- Step(cfg, s, es[0]);
      Run(cfg, s1, es[1..])
  }

  lemma {:induction false} RunConcat(cfg: Config, s: State, a: seq<Event>, b: seq<Event>)
    ensures Run(cfg, s, a + b)
         == match Run(cfg, s, a)
            case Panic => Panic
            case Ok(s1) => Run(cfg, s1, b)
    decreases |a|
  {
    hide Step;
    if |a| == 0 {
      assert a + b == b;
    } else {
      assert (a + b)[1..] == a[1..] + b;
      var r := Step(cfg, s, a[0]);
      if r.Ok? {
        RunConcat(cfg, r.value, a[1..], b);
      }
    }
  }

  function Txs(es: seq<TxEvent>): (r: seq<Event>)
    ensures |r| == |es|
  {
    seq(|es|, i requires 0 <= i < |es| => Tx(es[i]))
  }

  lemma StaysInTransaction(ctx: Ctx, w: Work, ord: nat, e: TxEvent)
    requires w.trx.Some? && StepWork(ctx, w, ord, e).Ok?
    ensures StepWork(ctx, w, ord, e).value.0.trx.Some?
  {
  }

  /** Inside a transaction, events only act on the transaction's own state and the ordinal counter. */
  lemma {:induction false} RunTxs(cfg: Config, s: State, es: seq<TxEvent>)
    requires s.work.trx.Some?
    ensures Run(cfg, s, Txs(es))
         == match RunWork(CtxOf(s), s.work, s.ordinal, es)
            case Panic => Panic
            case Ok(r) => Ok(s.(work := r.0, ordinal := r.1))
    ensures RunWork(CtxOf(s), s.work, s.ordinal, es).Ok?
        ==> RunWork(CtxOf(s), s.work, s.ordinal, es).value.0.trx.Some?
    decreases |es|
  {
    hide StepWork;
    if |es| > 0 {
      assert Txs(es)[1..] == Txs(es[1..]);
      assert Txs(es)[0] == Tx(es[0]);
      var r := StepWork(CtxOf(s), s.work, s.ordinal, es[0]);
      if r.Ok? {
        StaysInTransaction(CtxOf(s), s.work, s.ordinal, es[0]);
        var s1 := s.(work := r.value.0, ordinal := r.value.1);
        assert Step(cfg, s, Tx(es[0])) == Ok(s1);
        RunTxs(cfg, s1, es[1..]);
      }
    }
  }
}
