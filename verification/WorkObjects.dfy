/** The objects of one transaction or system call, taken together: their footprint, the work they stand for,
    and what the hooks do to them in place (tracer.go:1390-1887). */
module WorkObjects {
  import opened Bytes
  import opened Wrappers
  import opened Model
  import opened Sorting
  import opened Completion
  import opened Machine
  import opened Steps
  import opened Relabel
  import opened World
  import opened Objects
  import opened CallLoops
  import opened Preimages
  import opened Completing

  // ---------------------------------------------------------------- footprints and views

  /** A transaction set aside while a system call runs inside it: references, not copies. */
  datatype Interrupted = Interrupted(transaction: Transaction, logIndex: nat, reader: bool, preimages: seq<Recorded>,
                                     callStack: CallStack, deferred: DeferredCallState, suicided: bool)

  /** A flash snapshot: the block it was taken of, and how much of its lists belongs to it. */
  datatype SnapshotRef = SnapshotRef(block: OpenBlock, txTracesLen: nat, systemCallsLen: nat, balanceChangesLen: nat,
                                     codeChangesLen: nat, ordinal: nat, flashIndex: nat)

  ghost function CallsOf(trx: Transaction?): seq<Call>
    reads trx
  {
    if trx == null then [] else trx.calls
  }

  /** The objects of one transaction are those of `repr`, and no call occurs twice among them. */
  ghost predicate Owned(trx: Transaction?, cs: CallStack, d: DeferredCallState, repr: set<object>)
    reads trx, cs
  {
    && cs in repr && d in repr && cs.Valid() && (forall c :: c in cs.stack ==> c in repr)
    && (trx != null ==> trx in repr)
    && Separate(CallsOf(trx)) && (forall c :: c in CallsOf(trx) ==> c in repr && c !in cs.stack)
  }

  ghost function WorkOf(trx: Transaction?, logIndex: nat, reader: bool, preimages: seq<Recorded>,
                        cs: CallStack, d: DeferredCallState, suicided: bool): Work
    reads trx, CallsOf(trx), cs, cs.stack, d
  {
    Work(if trx == null then None else Some(trx.View()), logIndex, reader, preimages,
         Views(cs.stack), cs.index, d.View(), suicided)
  }

  lemma OwnedGrows(trx: Transaction?, cs: CallStack, d: DeferredCallState, repr: set<object>, repr': set<object>)
    requires Owned(trx, cs, d, repr) && repr <= repr'
    ensures Owned(trx, cs, d, repr')
  {
  }

  lemma EmptyWork(cs: CallStack, d: DeferredCallState, repr: set<object>, ps: seq<Recorded>)
    requires {cs, d} <= repr && cs.Valid() && cs.stack == [] && cs.index == 0 && d.View() == NO_CHANGES
    ensures Owned(null, cs, d, repr) && WorkOf(null, 0, false, ps, cs, d, false) == FRESH.(preimages := ps)
  {
    assert Views(cs.stack) == [];
  }

  ghost predicate InsideOnly(calls: seq<Call>, own: set<object>, other: set<object>) {
    forall i :: 0 <= i < |calls| ==> calls[i] in own && calls[i] !in other
  }

  ghost function JustBlock(block: OpenBlock?): set<object> {
    if block == null then {} else {block}
  }

  predicate FitsIn(s: SnapshotRef, b: Block) {
    && s.txTracesLen <= |b.txs| && s.systemCallsLen <= |b.systemCalls|
    && s.balanceChangesLen <= |b.balanceChanges| && s.codeChangesLen <= |b.codeChanges|
  }

  function SnapshotIn(s: SnapshotRef, b: Block): Snapshot
    requires FitsIn(s, b)
  {
    Snapshot(b.info.number, b.txs[..s.txTracesLen], b.systemCalls[..s.systemCallsLen],
             b.balanceChanges[..s.balanceChangesLen], b.codeChanges[..s.codeChangesLen], s.ordinal, s.flashIndex)
  }

  ghost predicate Fits(s: SnapshotRef)
    reads s.block
  {
    FitsIn(s, s.block.View())
  }

  /** The prefixes of the block's lists that the snapshot covers, as they are now. */
  ghost function StoredSnapshot(s: SnapshotRef): Snapshot
    requires Fits(s)
    reads s.block
  {
    SnapshotIn(s, s.block.View())
  }

  lemma WholeSnapshot(s: SnapshotRef)
    requires s.txTracesLen == |s.block.txs| && s.systemCallsLen == |s.block.systemCalls|
    requires s.balanceChangesLen == |s.block.balanceChanges| && s.codeChangesLen == |s.block.codeChanges|
    ensures Fits(s)
    ensures var b := s.block.View();
      StoredSnapshot(s) == Snapshot(b.info.number, b.txs, b.systemCalls, b.balanceChanges, b.codeChanges, s.ordinal,
                                    s.flashIndex)
  {
  }

  predicate GrewTo(b: Block, b': Block) {
    && b.info == b'.info && b.txs <= b'.txs && b.systemCalls <= b'.systemCalls
    && b.balanceChanges <= b'.balanceChanges && b.codeChanges <= b'.codeChanges
  }

  /** What is appended to a block later does not show in its snapshots. */
  lemma SnapshotUnaffected(s: SnapshotRef, b: Block, b': Block)
    requires FitsIn(s, b) && GrewTo(b, b')
    ensures FitsIn(s, b') && SnapshotIn(s, b') == SnapshotIn(s, b)
  {
  }

  method AddChange(block: OpenBlock, c: Change)
    modifies block
    ensures block.View() == AddBlockChange(old(block.View()), c) && GrewTo(old(block.View()), block.View())
  {
    if c.body.Balance? {
      block.balanceChanges := block.balanceChanges + [c];
    } else {
      block.codeChanges := block.codeChanges + [c];
    }
  }

  /** Appends what the snapshot covers to a block just opened. */
  method RestoreLists(block: OpenBlock, snap: SnapshotRef)
    requires Fits(snap) && snap.block != block
    modifies block
    ensures block.View() == Restored(old(block.View()), StoredSnapshot(snap))
  {
    block.txs := block.txs + snap.block.txs[..snap.txTracesLen];
    if snap.systemCallsLen > 0 {
      block.systemCalls := block.systemCalls + snap.block.systemCalls[..snap.systemCallsLen];
    }
    if snap.balanceChangesLen > 0 {
      block.balanceChanges := block.balanceChanges + snap.block.balanceChanges[..snap.balanceChangesLen];
    }
    if snap.codeChangesLen > 0 {
      block.codeChanges := block.codeChanges + snap.block.codeChanges[..snap.codeChangesLen];
    }
  }

  method AddTrace(block: OpenBlock, trx: TxTrace)
    modifies block
    ensures block.View() == AddTx(old(block.View()), trx) && GrewTo(old(block.View()), block.View())
  {
    block.txs := block.txs + [trx];
  }

  method AddCalls(block: OpenBlock, calls: seq<CallRec>)
    modifies block
    ensures block.View() == AddSystemCalls(old(block.View()), calls) && GrewTo(old(block.View()), block.View())
  {
    block.systemCalls := block.systemCalls + calls;
  }

  // ---------------------------------------------------------------- changes, on the shared objects

  /** The object a change is put on: the active call, or the deferred state when there is none. */
  ghost function Target(cs: CallStack, d: DeferredCallState): object
    reads cs
  {
    if |cs.stack| == 0 then d else cs.stack[|cs.stack| - 1]
  }

  /** Puts a change on the active call, or defers it. */
  method Note(ghost trx: Transaction?, cs: CallStack, d: DeferredCallState, ghost repr: set<object>, c: Change)
    requires Owned(trx, cs, d, repr)
    modifies Target(cs, d)
    ensures forall n: nat, reader, ps, suicided ::
      WorkOf(trx, n, reader, ps, cs, d, suicided) == Noted(old(WorkOf(trx, n, reader, ps, cs, d, suicided)), c)
  {
    hide AddTo, Call.View;
    var activeCall := cs.Peek();
    if activeCall == null {
      d.Add(c);
    } else {
      ghost var before := Views(cs.stack);
      assert activeCall in cs.stack;
      Fields(activeCall);
      Append(activeCall, c);
      OneChanged(cs.stack, before, |before| - 1);
      assert Views(cs.stack) == ReplaceTop(before, activeCall.View());
    }
  }

  // ---------------------------------------------------------------- opcodes, entries and exits, on the shared objects

  method MarkExecuted(call: Call, selfdestruct: bool)
    modifies call
    ensures call.View() == old(call.View()).(executedCode := true, suicide := old(call.View()).suicide || selfdestruct)
  {
    call.executedCode := true;
    if selfdestruct {
      call.suicide := true;
    }
  }

  method Execute(ghost trx: Transaction?, cs: CallStack, ghost d: DeferredCallState, ghost repr: set<object>,
                 selfdestruct: bool)
    requires Owned(trx, cs, d, repr) && |cs.stack| > 0
    modifies cs.stack[|cs.stack| - 1]
    ensures forall n: nat, reader, ps, suicided ::
      WorkOf(trx, n, reader, ps, cs, d, suicided)
        == Executed(old(WorkOf(trx, n, reader, ps, cs, d, suicided)), selfdestruct)
  {
    hide Call.View;
    var activeCall := cs.Peek();
    ghost var before := Views(cs.stack);
    assert activeCall in cs.stack;
    MarkExecuted(activeCall, selfdestruct);
    OneChanged(cs.stack, before, |before| - 1);
    assert Views(cs.stack) == ReplaceTop(before, activeCall.View());
  }

  method PushCall(ghost trx: Transaction?, cs: CallStack, ghost d: DeferredCallState, ghost repr: set<object>,
                  call: Call)
    requires Owned(trx, cs, d, repr) && call in repr && call !in cs.stack && call !in CallsOf(trx)
             && call.parentIndex == 0
    modifies cs, call
    ensures Owned(trx, cs, d, repr)
    ensures forall n: nat, reader, ps, suicided ::
      WorkOf(trx, n, reader, ps, cs, d, suicided)
        == Pushed(old(WorkOf(trx, n, reader, ps, cs, d, suicided)), old(call.View()))
  {
    hide Call.View;
    ghost var before := Views(cs.stack);
    if |cs.stack| > 0 {
      Fields(cs.stack[|cs.stack| - 1]);
    }
    cs.Push(call);
    assert Views(cs.stack) == before + [call.View()];
  }

  method EnterCall(ghost trx: Transaction?, cs: CallStack, d: DeferredCallState, ghost repr: set<object>, depth: int,
                   call: Call)
    requires Owned(trx, cs, d, repr) && call in repr && call !in cs.stack && call !in CallsOf(trx)
             && call.parentIndex == 0
    modifies cs, d, call
    ensures Owned(trx, cs, d, repr)
    ensures forall n: nat, reader, ps, suicided ::
      WorkOf(trx, n, reader, ps, cs, d, suicided)
        == Entered(old(WorkOf(trx, n, reader, ps, cs, d, suicided)), depth, old(call.View()))
  {
    hide Call.View, Concat, Pushed;
    Fields(call);
    if depth == 0 {
      var _ := d.MaybePopulateCallAndReset(FromEnter, call);
      Fields(call);
    }
    PushCall(trx, cs, d, repr, call);
  }

  method LeaveCall(trx: Transaction, cs: CallStack, ghost d: DeferredCallState, ghost repr: set<object>, x: Exit,
                   end: nat)
    requires Owned(trx, cs, d, repr) && |cs.stack| > 0
    modifies cs, cs.stack[|cs.stack| - 1], trx
    ensures Owned(trx, cs, d, repr)
    ensures forall n: nat, reader, ps, suicided ::
      WorkOf(trx, n, reader, ps, cs, d, suicided) == LeftCall(old(WorkOf(trx, n, reader, ps, cs, d, suicided)), x, end)
  {
    hide Call.View, Closed;
    ghost var before, calls := Views(cs.stack), Views(trx.calls);
    ghost var last := cs.stack[|cs.stack| - 1];
    assert last in cs.stack && last !in trx.calls && before[|before| - 1] == last.View();
    var call := cs.Pop();
    Close(call, x, end);
    assert Views(trx.calls) == calls;
    trx.calls := trx.calls + [call];
    assert Views(cs.stack) == before[..|before| - 1];
    assert Views(trx.calls) == calls + [call.View()];
  }

  // ---------------------------------------------------------------- ends, on the shared objects

  method ExplainCalls(trx: Transaction, ghost cs: CallStack, ghost d: DeferredCallState, ghost repr: set<object>,
                      ps: seq<Recorded>)
    requires Owned(trx, cs, d, repr)
    modifies trx.calls
    ensures Owned(trx, cs, d, repr) && trx.calls == old(trx.calls)
    ensures forall n: nat, reader, suicided ::
      WorkOf(trx, n, reader, ps, cs, d, suicided)
        == WithExplainedCalls(old(WorkOf(trx, n, reader, ps, cs, d, suicided)))
  {
    hide Call.View, Attach;
    forall i | 0 <= i < |cs.stack| ensures cs.stack[i] !in trx.calls {
    }
    AttachStorageSlotPreimages(trx.calls, ps);
    assert Views(cs.stack) == old(Views(cs.stack));
  }

  method EndWork(cfg: Config, trx: Transaction, ghost cs: CallStack, d: DeferredCallState, ghost repr: set<object>,
                 ps: seq<Recorded>, receipt: Option<Receipt>, ordinal: Ordinal) returns (r: Result<()>)
    requires Owned(trx, cs, d, repr)
    modifies trx, trx.calls, d, ordinal
    ensures var c := Complete(cfg, old(trx.View()), old(d.View()), ps, receipt, old(ordinal.value) + 1);
      && r.Ok? == c.Ok?
      && (r.Ok? ==> Owned(trx, cs, d, repr) && ordinal.value == old(ordinal.value) + 1)
      && (r.Ok? ==> forall n: nat, reader, ps', suicided ::
           WorkOf(trx, n, reader, ps', cs, d, suicided)
             == EndedWork(old(WorkOf(trx, n, reader, ps', cs, d, suicided)), c.value))
  {
    hide Call.View, Complete;
    forall i | 0 <= i < |cs.stack| ensures cs.stack[i] !in trx.calls {
    }
    r := CompleteTransaction(cfg, trx, d, ps, receipt, ordinal);
    assert Views(cs.stack) == old(Views(cs.stack));
  }

  /** Shifts a completed transaction in place. */
  method RebaseWork(trx: Transaction, ghost cs: CallStack, ghost d: DeferredCallState, ghost repr: set<object>,
                    base: nat) returns (end: nat)
    requires Owned(trx, cs, d, repr)
    modifies trx, trx.calls
    ensures Owned(trx, cs, d, repr) && end == trx.endOrdinal
    ensures forall n: nat, reader, ps, suicided ::
      WorkOf(trx, n, reader, ps, cs, d, suicided) == Rebased(old(WorkOf(trx, n, reader, ps, cs, d, suicided)), base)
  {
    hide Call.View, TxBy;
    forall i | 0 <= i < |cs.stack| ensures cs.stack[i] !in trx.calls {
    }
    end := ReorderTransactionOrdinals(trx, base);
    assert Views(cs.stack) == old(Views(cs.stack));
  }

}
