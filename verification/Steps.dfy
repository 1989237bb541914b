/** The machine's steps, case by case in the order the hooks test them, and what each case does to the
    state. */
module Steps {
  import opened Bytes
  import opened Wrappers
  import opened Model
  import opened Completion
  import opened Machine
  import opened Relabel
  import opened World
  import KeccakFilter

  // ---------------------------------------------------------------- changes, logs, opcodes, preimages

  /** A change put on the innermost open call, or deferred when there is none. */
  function Noted(w: Work, c: Change): Work {
    if |w.stack| == 0 then w.(deferred := AddTo(w.deferred, c))
    else
      var top := w.stack[|w.stack| - 1];
      w.(stack := ReplaceTop(w.stack, top.(lists := AddTo(top.lists, c))))
  }

  predicate IsIgnored(w: Work, b: StateChange) {
    |w.stack| > 0 && IgnoredAfterSuicide(b, w.stack[|w.stack| - 1])
  }

  lemma NothingChanges(s: State, b: StateChange)
    requires IsNoOp(b) || (s.work.trx.Some? && (s.block.Some? || b.Balance? || b.Code?) && IsIgnored(s.work, b))
    ensures StepTx(s, Changed(b)) == Ok(s)
  {
    hide AddTo, AddBlockChange, IsNoOp, IgnoredAfterSuicide;
    if |s.work.stack| > 0 {
      assert ReplaceTop(s.work.stack, s.work.stack[|s.work.stack| - 1]) == s.work.stack;
    }
  }

  lemma ChangeNoted(s: State, b: StateChange)
    requires !IsNoOp(b) && s.work.trx.Some? && (s.block.Some? || b.Balance? || b.Code?) && !IsIgnored(s.work, b)
    ensures StepTx(s, Changed(b)) == Ok(s.(work := Noted(s.work, Change(s.ordinal + 1, b)), ordinal := s.ordinal + 1))
  {
    hide AddTo, AddBlockChange, IsNoOp, IgnoredAfterSuicide;
  }

  lemma ChangeOutside(s: State, b: StateChange)
    requires !IsNoOp(b) && (s.work.trx.None? || (s.block.None? && (b.Nonce? || b.Storage?)))
    ensures StepTx(s, Changed(b))
         == if s.block.None? || b.Nonce? || b.Storage? then Panic
            else Ok(s.(ordinal := s.ordinal + 1,
                       block := Some(AddBlockChange(s.block.value, Change(s.ordinal + 1, b)))))
  {
    hide AddTo, AddBlockChange, IsNoOp, IgnoredAfterSuicide, LeafOnCall, LeafOutside;
  }

  /** The cases of a change hook, in the order the hooks test them. */
  lemma ChangeCases(s: State, b: StateChange)
    ensures StepTx(s, Changed(b))
         == if IsNoOp(b) then Ok(s)
            else if s.work.trx.None? && (s.block.None? || b.Nonce? || b.Storage?) then Panic
            else if s.block.None? && (b.Nonce? || b.Storage?) then Panic
            else if s.work.trx.None? then
              Ok(s.(ordinal := s.ordinal + 1, block := Some(AddBlockChange(s.block.value, Change(s.ordinal + 1, b)))))
            else if IsIgnored(s.work, b) then Ok(s)
            else Ok(s.(work := Noted(s.work, Change(s.ordinal + 1, b)), ordinal := s.ordinal + 1))
  {
    hide StepTx, AddBlockChange, IsNoOp, IsIgnored, Noted;
    if IsNoOp(b) {
      NothingChanges(s, b);
    } else if s.work.trx.None? || (s.block.None? && (b.Nonce? || b.Storage?)) {
      ChangeOutside(s, b);
    } else if IsIgnored(s.work, b) {
      NothingChanges(s, b);
    } else {
      ChangeNoted(s, b);
    }
  }

  /** A log noted under the next ordinal and the next log index. */
  function Logged(s: State, log: LogData, blockIndex: nat): State {
    var w := Noted(s.work, Change(s.ordinal + 1, Log(log, s.work.logIndex, blockIndex)));
    s.(work := w.(logIndex := w.logIndex + 1), ordinal := s.ordinal + 1)
  }

  lemma LogCases(s: State, log: LogData, blockIndex: nat)
    ensures StepTx(s, Emit(log, blockIndex))
         == if s.work.trx.None? || s.block.None? then Panic else Ok(Logged(s, log, blockIndex))
  {
    hide AddTo;
  }

  lemma KeccakCases(s: State, hash: Word, preimage: Bytes)
    ensures StepTx(s, Keccak(hash, preimage))
         == if s.work.trx.None? || s.block.None? || |s.work.stack| == 0 then Panic
            else if |preimage| > MAX_PREIMAGE then Ok(s)
            else
              var r := KeccakFilter.Recorded(s.work.stack[|s.work.stack| - 1].index, hash, preimage);
              Ok(s.(work := s.work.(preimages := s.work.preimages + [r])))
  {
    if |s.work.stack| > 0 {
      assert ReplaceTop(s.work.stack, s.work.stack[|s.work.stack| - 1]) == s.work.stack;
    }
  }

  /** The active call executed code; `selfdestruct` is the opcode that marks it. */
  function Executed(w: Work, selfdestruct: bool): Work {
    if |w.stack| == 0 then w
    else
      var top := w.stack[|w.stack| - 1];
      w.(stack := ReplaceTop(w.stack, top.(executedCode := true, suicide := top.suicide || selfdestruct)))
  }

  lemma ExecutedOpcode(s: State, op: Byte, failed: bool)
    ensures StepTx(s, Opcode(op, failed)) == Ok(s.(work := Executed(s.work, !failed && op == SELFDESTRUCT)))
    ensures StepTx(s, OpcodeFault) == Ok(s.(work := Executed(s.work, false)))
  {
  }

  // ---------------------------------------------------------------- calls

  /** A call numbered and put on the stack. */
  function Pushed(w: Work, c: CallRec): Work {
    w.(stack := w.stack + [Numbered(c, w.index + 1, |w.stack|, TopIndex(w.stack))], index := w.index + 1)
  }

  /** The root call takes over what was deferred. */
  function Entered(w: Work, depth: int, c: CallRec): Work {
    if depth == 0 then Pushed(w.(deferred := NO_CHANGES), c.(lists := Concat(w.deferred, c.lists))) else Pushed(w, c)
  }

  lemma EnteredCall(s: State, depth: int, f: Frame)
    ensures StepTx(s, Enter(depth, f))
         == if f.typ == SELFDESTRUCT then Ok(s.(work := s.work.(suicided := true)))
            else if KindOf(f.typ) == Unspecified then Panic
            else Ok(s.(ordinal := s.ordinal + 1,
                       work := Entered(s.work, depth, NewCall(f, DelegationOf(CtxOf(s), s.work.reader, f),
                                                              s.ordinal + 1, NO_CHANGES))))
  {
    hide KindOf;
    ConcatEmpty(s.work.deferred);
  }

  function LeftCall(w: Work, x: Exit, end: nat): Work
    requires |w.stack| > 0 && w.trx.Some?
  {
    var closed := Closed(w.stack[|w.stack| - 1], x, end);
    w.(stack := w.stack[..|w.stack| - 1], trx := Some(w.trx.value.(calls := w.trx.value.calls + [closed])))
  }

  lemma LeavingCall(s: State, x: Exit)
    ensures StepTx(s, Leave(x))
         == if s.work.suicided then Ok(s.(work := s.work.(suicided := false)))
            else if s.work.trx.None? || s.block.None? || |s.work.stack| == 0 then Panic
            else Ok(s.(work := LeftCall(s.work, x, s.ordinal + 1), ordinal := s.ordinal + 1))
  {
    hide Closed;
  }

  // ---------------------------------------------------------------- ends of transactions and system calls

  /** The work left by a completed transaction. */
  function EndedWork(w: Work, done: TxTrace): Work
    requires w.trx.Some?
  {
    var w1 := w.(trx := Some(done));
    if |w.trx.value.calls| == 0 then w1 else w1.(deferred := NO_CHANGES)
  }

  /** A completed transaction kept for its commit, or put in the block. */
  function HandedOver(s: State, hadCalls: bool): State
    requires s.block.Some? && s.work.trx.Some?
  {
    if s.isolated then s.(ended := true, work := if hadCalls then s.work.(preimages := []) else s.work)
    else ResetTransaction(s.(block := Some(AddTx(s.block.value, s.work.trx.value))))
  }

  ghost function Completed(cfg: Config, s: State, receipt: Option<Receipt>): Result<State>
    requires s.work.trx.Some?
  {
    var w := s.work;
    var done :- Complete(cfg, w.trx.value, w.deferred, w.preimages, receipt, s.ordinal + 1);
    Ok(s.(ordinal := s.ordinal + 1, work := EndedWork(w, done)))
  }

  lemma TxEndCases(cfg: Config, s: State, receipt: Option<Receipt>)
    ensures StepTxEnd(cfg, s, receipt)
         == if s.block.None? || s.work.trx.None? then Panic
            else if receipt.None? && cfg.dropWithoutReceipt then
              Ok(if s.isolated then s.(dropped := true) else ResetTransaction(s))
            else match Completed(cfg, s, receipt)
              case Panic => Panic
              case Ok(s1) => Ok(HandedOver(s1, |s.work.trx.value.calls| > 0))
  {
    hide Complete, AddTx;
  }

  /** The calls of a system call with their preimages. */
  ghost function WithExplainedCalls(w: Work): Work
    requires w.trx.Some?
  {
    w.(trx := Some(w.trx.value.(calls := Attach(w.trx.value.calls, w.preimages))))
  }

  /** The calls of a system call with their preimages, filed in the block. */
  ghost function Filed(s: State): State
    requires s.block.Some? && s.work.trx.Some?
  {
    var w := WithExplainedCalls(s.work);
    s.(work := w, block := Some(AddSystemCalls(s.block.value, w.trx.value.calls)))
  }

  function Resumed(s: State): State {
    if s.saved.Some? then s.(work := s.saved.value, saved := None) else s
  }

  lemma SysEndCases(s: State)
    ensures StepSysEnd(s)
         == if s.block.None? || s.work.trx.None? then Panic
            else if !s.inSystemCall || HasCallOnlyChanges(s.work.deferred) then Panic
            else Ok(Resumed(ResetTransaction(Filed(s))))
  {
    hide Attach;
  }

  // ---------------------------------------------------------------- commits and block starts

  function Rebased(w: Work, base: nat): Work
    requires w.trx.Some?
  {
    w.(trx := Some(TxBy(AddBase(base), w.trx.value)))
  }

  /** What a commit makes of a coordinator and one isolated tracer. */
  function CommitOf(c: State, i: State): Result<World> { StepCommit(World(c, map[0 := i]), 0) }

  lemma CommitCases(c: State, i: State)
    ensures CommitOf(c, i)
         == if i.dropped then Ok(World(c, map[0 := i.(dropped := false)]))
            else if !i.ended || i.work.trx.None? then Ok(World(c, map[0 := i]))
            else if c.block.None? then Panic
            else
              var w := Rebased(i.work, c.ordinal);
              var trx := w.trx.value;
              Ok(World(c.(block := Some(AddTx(c.block.value, trx)), ordinal := trx.endOrdinal),
                       map[0 := i.(work := w, ended := false)]))
  {
    hide TxBy;
    var w := World(c, map[0 := i]);
    assert forall j: State :: w.iso[0 := j] == map[0 := j];
  }

  /** A block opened by its rules, finality and number, before any snapshot is restored. */
  function BlockOpened(s: State, info: BlockInfo, prague: bool, finalized: Option<nat>): State {
    s.(prague := prague, block := Some(NewBlock(info)),
       finality := if finalized.Some? then finalized.value else s.finality)
  }

  function SnapshotRestored(s: State): State
    requires s.block.Some?
  {
    if s.flash.Some? && s.snapshot.Some?
    then s.(block := Some(Restored(s.block.value, s.snapshot.value)), ordinal := s.snapshot.value.ordinal) else s
  }

  lemma BlockStartCases(s: State, info: BlockInfo, prague: bool, flash: Option<Flash>, finalized: Option<nat>)
    ensures StepBlockStart(s, info, prague, flash, finalized)
         == if flash.None? then Ok(SnapshotRestored(BlockOpened(s, info, prague, finalized)))
            else match CheckedSnapshot(s.snapshot, flash.value, info.number)
              case Panic => Panic
              case Ok(snap) =>
                Ok(SnapshotRestored(BlockOpened(s.(snapshot := snap, flash := flash), info, prague, finalized)))
  {
    hide CheckedSnapshot;
  }
}
