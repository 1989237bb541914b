/** The tracer as the source writes it: an object whose hooks update fields and shared records in place
    (tracer.go). Every hook is proved to do what the state machine's step says, on the tracer's view. */
module Tracing {
  import opened Bytes
  import opened Wrappers
  import opened Model
  import opened Sorting
  import opened Completion
  import opened Machine
  import opened Relabel
  import opened World
  import opened Objects
  import opened CallLoops
  import opened Preimages
  import opened Steps
  import opened WorkObjects
  import KeccakFilter

  class Tracer {
    const config: Config
    var block: OpenBlock?
    const blockOrdinal: Ordinal
    var blockFinality: nat
    var isPrague: bool
    var blockIsGenesis: bool

    var transaction: Transaction?
    var transactionLogIndex: nat
    var transactionStateReader: bool
    var inSystemCall: bool
    var transactionKeccakPreimages: seq<Recorded>
    var interruptedTransaction: Option<Interrupted>

    const transactionIsolated: bool
    var transactionTransient: Transaction?
    var transactionDropped: bool

    var callStack: CallStack
    var deferredCallState: DeferredCallState
    var latestCallEnterSuicided: bool

    var flash: Option<Flash>
    var snapshotForNextFlashBlock: Option<SnapshotRef>

    /** The blocks handed to the output, in order. */
    var output: seq<Output>

    /** The objects of the current transaction, those of the interrupted one, and all of them. */
    ghost var Live: set<object>
    ghost var Saved: set<object>
    ghost var Repr: set<object>

    ghost predicate Valid()
      reads this, Repr
    {
      && Shell() && LiveValid() && (transactionTransient != null ==> transactionTransient == transaction)
    }

    /** Everything but the current transaction is in order. */
    ghost predicate Shell()
      reads this, Repr
    {
      && this in Repr && blockOrdinal in Repr && Live <= Repr && Saved <= Repr && Live !! Saved
      && callStack in Live && deferredCallState in Live && (block != null ==> block in Repr)
      && SavedValid() && SnapshotValid()
    }

    ghost predicate LiveValid()
      reads this, Live
    {
      callStack in Live && (transaction != null ==> transaction in Live)
      && Owned(transaction, callStack, deferredCallState, Live)
    }

    ghost predicate SavedValid()
      reads this, Saved
    {
      interruptedTransaction.Some? ==>
        var s := interruptedTransaction.value;
        s.callStack in Saved && s.transaction in Saved && Owned(s.transaction, s.callStack, s.deferred, Saved)
    }

    ghost predicate SnapshotValid()
      reads this, Repr
    {
      snapshotForNextFlashBlock.Some? ==>
        snapshotForNextFlashBlock.value.block in Repr && Fits(snapshotForNextFlashBlock.value)
    }

    ghost function BlockView(): Option<Block>
      requires block != null ==> block in Repr
      reads this, Repr
    {
      if block == null then None else Some(block.View())
    }

    ghost function WorkView(): Work
      requires LiveValid()
      reads this, Live
    {
      WorkOf(transaction, transactionLogIndex, transactionStateReader, transactionKeccakPreimages,
             callStack, deferredCallState, latestCallEnterSuicided)
    }

    ghost function SavedView(): Option<Work>
      requires SavedValid()
      reads this, Saved
    {
      if interruptedTransaction.None? then None
      else
        var s := interruptedTransaction.value;
        Some(WorkOf(s.transaction, s.logIndex, s.reader, s.preimages, s.callStack, s.deferred, s.suicided))
    }

    ghost function SnapshotView(): Option<Snapshot>
      requires SnapshotValid()
      reads this, Repr
    {
      if snapshotForNextFlashBlock.None? then None else Some(StoredSnapshot(snapshotForNextFlashBlock.value))
    }

    /** The state of the machine this tracer is in. */
    ghost function View(): State
      requires Valid()
      reads this, Repr
    {
      State(BlockView(), isPrague, blockIsGenesis, blockFinality, blockOrdinal.value, WorkView(), inSystemCall,
            SavedView(), transactionIsolated, transactionTransient != null, transactionDropped, flash,
            SnapshotView(), output)
    }

    /** The hook panicked exactly when `step` does, and otherwise led to the same state. */
    ghost predicate Follows(step: Result<State>, r: Result<()>)
      reads this, Repr
    {
      r.Ok? == step.Ok? && (r.Ok? ==> Valid() && View() == step.value)
    }

    // -------------------------------------------------------------- creation

    /** A tracer with nothing in progress, of its own or sharing a block. */
    constructor (config: Config, isolated: bool, block: OpenBlock?, finality: nat, isPrague: bool)
      ensures Shell() && fresh(Repr - JustBlock(block)) && this.config == config && transactionIsolated == isolated
      ensures this.block == block && blockFinality == finality && this.isPrague == isPrague && !blockIsGenesis
      ensures blockOrdinal.value == 0 && interruptedTransaction == None && !transactionDropped
      ensures flash == None && snapshotForNextFlashBlock == None && output == []
    {
      this.config, transactionIsolated := config, isolated;
      this.block, blockFinality, this.isPrague := block, finality, isPrague;
      blockIsGenesis := false;
      blockOrdinal := new Ordinal();
      interruptedTransaction, transactionDropped := None, false;
      callStack := new CallStack();
      deferredCallState := new DeferredCallState();
      flash, snapshotForNextFlashBlock, output := None, None, [];
      Live, Saved := {callStack, deferredCallState}, {};
      Repr := {this, blockOrdinal, callStack, deferredCallState} + JustBlock(block);
    }

    // -------------------------------------------------------------- state changes

    method NextOrdinal() returns (r: nat)
      requires Valid()
      modifies blockOrdinal
      ensures Valid() && r == old(View()).ordinal + 1 && View() == old(View()).(ordinal := r)
    {
      hide WorkOf, StoredSnapshot;
      r := blockOrdinal.Next();
    }

    /** Puts a change on the active call, or defers it. */
    method Attach(c: Change)
      requires Valid()
      modifies Target(callStack, deferredCallState)
      ensures Valid() && View() == old(View()).(work := Noted(old(View()).work, c))
    {
      hide WorkOf, StoredSnapshot, Noted;
      Note(transaction, callStack, deferredCallState, Live, c);
    }

    /** The same, under the next ordinal. */
    method Record(b: Body)
      requires Valid()
      modifies blockOrdinal, Target(callStack, deferredCallState)
      ensures Valid() && View() == old(View()).(ordinal := old(View()).ordinal + 1,
                                                work := Noted(old(View()).work, Change(old(View()).ordinal + 1, b)))
    {
      hide View, Noted;
      var ordinal := NextOrdinal();
      Attach(Change(ordinal, b));
    }

    /** A change put on the block. */
    method AttachToBlock(c: Change)
      requires Valid() && block != null
      modifies block
      ensures Valid() && View() == old(View()).(block := Some(AddBlockChange(old(block.View()), c)))
    {
      hide WorkOf, FitsIn, SnapshotIn, OpenBlock.View, AddBlockChange;
      ghost var before := block.View();
      AddChange(block, c);
      assert SnapshotValid() && SnapshotView() == old(SnapshotView()) by {
        if snapshotForNextFlashBlock.Some? && snapshotForNextFlashBlock.value.block == block {
          SnapshotUnaffected(snapshotForNextFlashBlock.value, before, block.View());
        }
      }
      assert WorkView() == old(WorkView()) && SavedView() == old(SavedView());
    }

    method RecordOnBlock(b: Body)
      requires Valid() && block != null
      modifies blockOrdinal, block
      ensures Valid() && View() == old(View()).(ordinal := old(View()).ordinal + 1,
        block := Some(AddBlockChange(old(block.View()), Change(old(View()).ordinal + 1, b))))
    {
      hide View, AddBlockChange;
      var ordinal := NextOrdinal();
      AttachToBlock(Change(ordinal, b));
    }

    /** What the view says of the fields the hooks test. */
    lemma Shows()
      requires Valid()
      ensures var s := View();
        && s.block == BlockView() && s.ordinal == blockOrdinal.value && s.inSystemCall == inSystemCall
        && s.isolated == transactionIsolated && s.prague == isPrague && s.genesis == blockIsGenesis
        && s.dropped == transactionDropped && (s.ended <==> transactionTransient != null)
        && (interruptedTransaction.Some? <==> s.saved.Some?)
      ensures var w := View().work;
        && (w.trx.None? <==> transaction == null) && (transaction != null ==> w.trx.value == transaction.View())
        && w.logIndex == transactionLogIndex && w.reader == transactionStateReader
        && w.suicided == latestCallEnterSuicided
        && (HasCallOnlyChanges(w.deferred) <==> deferredCallState.HasCallOnlyChanges())
        && (|w.stack| == 0 <==> !callStack.HasActiveCall())
    {
      hide Call.View;
    }

    /** The active call is the last open one of the view. */
    lemma ShowsActive()
      requires Valid() && callStack.HasActiveCall()
      ensures var w, active := View().work, callStack.Peek(); |w.stack| > 0 && active.View() == w.stack[|w.stack| - 1]
    {
      hide Call.View;
    }

    lemma ShowsPreimages()
      requires LiveValid()
      ensures WorkView().preimages == transactionKeccakPreimages
    {
    }

    lemma ShowsMarks()
      requires Valid()
      ensures var s := View();
        && s.block == (if block == null then None else Some(block.View()))
        && (s.work.trx.None? <==> transaction == null)
        && s.dropped == transactionDropped && (s.ended <==> transactionTransient != null)
    {
    }

    lemma Owns()
      requires Valid()
      ensures {this, blockOrdinal, callStack, deferredCallState, Target(callStack, deferredCallState)} <= Repr
      ensures (block != null ==> block in Repr) && (transaction != null ==> transaction in Repr)
      ensures forall c :: c in callStack.stack || c in CallsOf(transaction) ==> c in Repr
      ensures transactionTransient != null ==> transaction != null
    {
    }

    method OnBalanceChange(addr: Bytes, oldBalance: nat, newBalance: nat, reason: nat) returns (r: Result<()>)
      requires Valid()
      modifies Repr
      ensures Follows(StepTx(old(View()), Changed(Balance(addr, oldBalance, newBalance, reason))), r)
      ensures r.Ok? ==> Repr == old(Repr) && block == old(block)
    {
      hide WorkOf, StoredSnapshot, Noted, StepTx, View, Valid;
      Shows();
      Owns();
      ChangeCases(View(), Balance(addr, oldBalance, newBalance, reason));
      if reason == REASON_UNKNOWN {
        return Ok(());
      }
      if oldBalance == newBalance {
        return Ok(());
      }
      if block == null && transaction == null {
        return Panic;
      }
      if transaction != null {
        Record(Balance(addr, oldBalance, newBalance, reason));
      } else {
        RecordOnBlock(Balance(addr, oldBalance, newBalance, reason));
      }
      return Ok(());
    }

    method OnNonceChange(addr: Bytes, oldNonce: nat, newNonce: nat) returns (r: Result<()>)
      requires Valid()
      modifies Repr
      ensures Follows(StepTx(old(View()), Changed(Nonce(addr, oldNonce, newNonce))), r)
      ensures r.Ok? ==> Repr == old(Repr) && block == old(block)
    {
      hide WorkOf, StoredSnapshot, Noted, StepTx, View, Valid;
      Shows();
      Owns();
      ChangeCases(View(), Nonce(addr, oldNonce, newNonce));
      if oldNonce == newNonce {
        return Ok(());
      }
      if block == null || transaction == null {
        return Panic;
      }
      Record(Nonce(addr, oldNonce, newNonce));
      return Ok(());
    }

    method OnCodeChange(addr: Bytes, oldHash: Word, newHash: Word, oldCode: Bytes, newCode: Bytes)
        returns (r: Result<()>)
      requires Valid()
      modifies Repr
      ensures Follows(StepTx(old(View()), Changed(Code(addr, oldHash, newHash, oldCode, newCode))), r)
      ensures r.Ok? ==> Repr == old(Repr) && block == old(block)
    {
      hide WorkOf, StoredSnapshot, Noted, StepTx, View, Call.View, Valid;
      Shows();
      Owns();
      ChangeCases(View(), Code(addr, oldHash, newHash, oldCode, newCode));
      if oldHash == newHash {
        return Ok(());
      }
      if block == null && transaction == null {
        return Panic;
      }
      if transaction != null {
        var activeCall := callStack.Peek();
        if activeCall != null {
          ShowsActive();
          Fields(activeCall);
          if activeCall.suicide && |oldCode| > 0 && |newCode| == 0 {
            return Ok(());
          }
        }
        Record(Code(addr, oldHash, newHash, oldCode, newCode));
      } else {
        RecordOnBlock(Code(addr, oldHash, newHash, oldCode, newCode));
      }
      return Ok(());
    }

    method OnStorageChange(addr: Bytes, slot: Word, oldValue: Word, newValue: Word) returns (r: Result<()>)
      requires Valid()
      modifies Repr
      ensures Follows(StepTx(old(View()), Changed(Storage(addr, slot, oldValue, newValue))), r)
      ensures r.Ok? ==> Repr == old(Repr) && block == old(block)
    {
      hide WorkOf, StoredSnapshot, Noted, StepTx, View, Valid;
      Shows();
      Owns();
      ChangeCases(View(), Storage(addr, slot, oldValue, newValue));
      if oldValue == newValue {
        return Ok(());
      }
      if block == null || transaction == null {
        return Panic;
      }
      Record(Storage(addr, slot, oldValue, newValue));
      return Ok(());
    }

    // -------------------------------------------------------------- logs, opcodes, preimages

    method CountLog()
      requires Valid()
      modifies `transactionLogIndex
      ensures Valid() && View() == old(View()).(work := old(View()).work.(logIndex := old(View()).work.logIndex + 1))
    {
      hide StoredSnapshot, Transaction.View, Call.View, DeferredCallState.View;
      transactionLogIndex := transactionLogIndex + 1;
      assert SavedView() == old(SavedView()) && SnapshotView() == old(SnapshotView());
    }

    method RecordLog(log: LogData, blockIndex: nat)
      requires Valid()
      modifies blockOrdinal, Target(callStack, deferredCallState), `transactionLogIndex
      ensures Valid() && View() == Logged(old(View()), log, blockIndex)
    {
      hide View, Valid, Noted;
      Shows();
      Record(Log(log, transactionLogIndex, blockIndex));
      CountLog();
    }

    method OnLog(log: LogData, blockIndex: nat) returns (r: Result<()>)
      requires Valid()
      modifies Repr
      ensures Follows(StepTx(old(View()), Emit(log, blockIndex)), r)
      ensures r.Ok? ==> Repr == old(Repr) && block == old(block)
    {
      hide WorkOf, StoredSnapshot, Logged, StepTx, View, Valid;
      Shows();
      Owns();
      LogCases(View(), log, blockIndex);
      if block == null || transaction == null {
        return Panic;
      }
      RecordLog(log, blockIndex);
      return Ok(());
    }

    method ExecuteActive(selfdestruct: bool)
      requires Valid() && callStack.HasActiveCall()
      modifies Target(callStack, deferredCallState)
      ensures Valid() && View() == old(View()).(work := Executed(old(View()).work, selfdestruct))
    {
      hide WorkOf, StoredSnapshot, Executed;
      Execute(transaction, callStack, deferredCallState, Live, selfdestruct);
    }

    method OnOpcode(op: Byte, failed: bool)
      requires Valid()
      modifies Repr
      ensures Follows(StepTx(old(View()), Opcode(op, failed)), Ok(())) && Repr == old(Repr) && block == old(block)
    {
      hide WorkOf, StoredSnapshot, StepTx, View, Valid;
      Shows();
      Owns();
      ExecutedOpcode(View(), op, failed);
      if callStack.HasActiveCall() {
        ExecuteActive(!failed && op == SELFDESTRUCT);
      }
    }

    method OnOpcodeFault()
      requires Valid()
      modifies Repr
      ensures Follows(StepTx(old(View()), OpcodeFault), Ok(())) && Repr == old(Repr) && block == old(block)
    {
      hide WorkOf, StoredSnapshot, StepTx, View, Valid;
      Shows();
      Owns();
      ExecutedOpcode(View(), 0, true);
      if callStack.HasActiveCall() {
        ExecuteActive(false);
      }
    }

    method Remember(p: Recorded)
      requires Valid()
      modifies `transactionKeccakPreimages
      ensures Valid()
      ensures View() == old(View()).(work := old(View()).work.(preimages := old(View()).work.preimages + [p]))
    {
      hide StoredSnapshot, Transaction.View, Call.View, DeferredCallState.View;
      transactionKeccakPreimages := transactionKeccakPreimages + [p];
      assert SavedView() == old(SavedView()) && SnapshotView() == old(SnapshotView());
    }

    method OnKeccakPreimage(hash: Word, preimage: Bytes) returns (r: Result<()>)
      requires Valid()
      modifies Repr
      ensures Follows(StepTx(old(View()), Keccak(hash, preimage)), r)
      ensures r.Ok? ==> Repr == old(Repr) && block == old(block)
    {
      hide WorkOf, StoredSnapshot, StepTx, View, Call.View, Valid;
      Shows();
      Owns();
      KeccakCases(View(), hash, preimage);
      if block == null || transaction == null || !callStack.HasActiveCall() {
        return Panic;
      }
      if |preimage| > MAX_PREIMAGE {
        return Ok(());
      }
      ShowsActive();
      Fields(callStack.Peek());
      Remember(KeccakFilter.Recorded(callStack.Peek().index, hash, preimage));
      return Ok(());
    }

    // -------------------------------------------------------------- calls

    method SetSuicided(suicided: bool)
      requires Valid()
      modifies `latestCallEnterSuicided
      ensures Valid() && View() == old(View()).(work := old(View()).work.(suicided := suicided))
    {
      hide StoredSnapshot, Transaction.View, Call.View, DeferredCallState.View;
      latestCallEnterSuicided := suicided;
      assert SavedView() == old(SavedView()) && SnapshotView() == old(SnapshotView());
    }

    ghost method Reach(objects: set<object>)
      requires Valid()
      modifies `Repr
      ensures Valid() && View() == old(View()) && Repr == old(Repr) + objects
    {
      hide WorkOf, StoredSnapshot;
      Repr := Repr + objects;
      assert SavedValid() && SavedView() == old(SavedView());
      assert SnapshotValid() && SnapshotView() == old(SnapshotView());
    }

    ghost method Enliven(o: object)
      requires Valid() && o in Repr && o !in Saved
      modifies `Live
      ensures Valid() && View() == old(View()) && Live == old(Live) + {o}
    {
      hide WorkOf, StoredSnapshot;
      OwnedGrows(transaction, callStack, deferredCallState, Live, Live + {o});
      Live := Live + {o};
      assert SavedValid() && SavedView() == old(SavedView());
    }

    /** Makes a new object one of the current transaction's. */
    ghost method Adopt(o: object)
      requires Valid() && o !in Repr
      modifies `Live, `Repr
      ensures Valid() && View() == old(View()) && Repr == old(Repr) + {o} && Live == old(Live) + {o}
    {
      hide View;
      Reach({o});
      Enliven(o);
    }

    method PushEntered(depth: int, call: Call)
      requires Valid() && call in Live && call !in callStack.stack && call !in CallsOf(transaction)
               && call.parentIndex == 0
      modifies callStack, deferredCallState, call
      ensures Valid() && View() == old(View()).(work := Entered(old(View()).work, depth, old(call.View())))
    {
      hide WorkOf, StoredSnapshot, Entered;
      EnterCall(transaction, callStack, deferredCallState, Live, depth, call);
    }

    method StartCall(depth: int, frame: Frame, delegatesTo: Option<Bytes>, begin: nat)
      requires Valid()
      modifies Repr
      ensures Valid() && fresh(Repr - old(Repr)) && block == old(block)
      ensures View() == old(View()).(work := Entered(old(View()).work, depth,
                                                     NewCall(frame, delegatesTo, begin, NO_CHANGES)))
    {
      hide WorkOf, StoredSnapshot, View, Call.View, Entered, Valid;
      Shows();
      Owns();
      var call := new Call(frame, delegatesTo, begin);
      Fields(call);
      Adopt(call);
      PushEntered(depth, call);
    }

    method OnCallEnter(depth: int, frame: Frame) returns (r: Result<()>)
      requires Valid()
      modifies Repr
      ensures Follows(StepTx(old(View()), Enter(depth, frame)), r)
      ensures r.Ok? ==> fresh(Repr - old(Repr)) && block == old(block)
    {
      hide WorkOf, StoredSnapshot, StepTx, Valid, View, Call.View, Entered, KindOf;
      Shows();
      Owns();
      EnteredCall(View(), depth, frame);
      if frame.typ == SELFDESTRUCT {
        SetSuicided(true);
        return Ok(());
      }
      var begin := NextOrdinal();
      if KindOf(frame.typ) == Unspecified {
        return Panic;
      }
      var delegatesTo := None;
      if isPrague && !inSystemCall && !blockIsGenesis && KindOf(frame.typ) != Create {
        if transactionStateReader {
          delegatesTo := frame.delegation;
        }
      }
      StartCall(depth, frame, delegatesTo, begin);
      return Ok(());
    }

    method PopLeft(exit: Exit, end: nat)
      requires Valid() && transaction != null && callStack.HasActiveCall()
      modifies callStack, callStack.Peek(), transaction
      ensures Valid() && View() == old(View()).(work := LeftCall(old(View()).work, exit, end))
    {
      hide WorkOf, StoredSnapshot, LeftCall;
      LeaveCall(transaction, callStack, deferredCallState, Live, exit, end);
    }

    method OnCallExit(exit: Exit) returns (r: Result<()>)
      requires Valid()
      modifies Repr
      ensures Follows(StepTx(old(View()), Leave(exit)), r)
      ensures r.Ok? ==> Repr == old(Repr) && block == old(block)
    {
      hide WorkOf, StoredSnapshot, StepTx, View, LeftCall, Valid;
      Shows();
      Owns();
      LeavingCall(View(), exit);
      if latestCallEnterSuicided {
        SetSuicided(false);
        return Ok(());
      }
      if block == null || transaction == null || !callStack.HasActiveCall() {
        return Panic;
      }
      var end := NextOrdinal();
      PopLeft(exit, end);
      return Ok(());
    }
  
    // -------------------------------------------------------------- transactions

    method EmptyStacks()
      requires Shell()
      modifies callStack, deferredCallState
      ensures Shell() && callStack.Valid() && callStack.stack == [] && callStack.index == 0
              && deferredCallState.View() == NO_CHANGES
      ensures SavedView() == old(SavedView()) && SnapshotView() == old(SnapshotView())
    {
      hide StoredSnapshot, WorkOf;
      callStack.Reset();
      deferredCallState.Reset();
      assert SavedValid() && SavedView() == old(SavedView());
    }

    /** Forgets the current transaction and its calls. */
    method ForgetTransaction()
      requires Shell()
      modifies `transaction, `transactionLogIndex, `transactionStateReader, `inSystemCall, `transactionTransient,
               `transactionKeccakPreimages, `latestCallEnterSuicided, callStack, deferredCallState
      ensures Valid() && WorkView() == FRESH && !inSystemCall && transaction == null && transactionTransient == null
      ensures BlockView() == old(BlockView()) && SavedView() == old(SavedView())
              && SnapshotView() == old(SnapshotView())
    {
      hide WorkOf, StoredSnapshot;
      EmptyStacks();
      ForgetFields();
      EmptyWork(callStack, deferredCallState, Live, []);
      assert SavedValid() && SavedView() == old(SavedView());
      assert SnapshotValid() && SnapshotView() == old(SnapshotView());
    }

    method ForgetFields()
      modifies `transaction, `transactionLogIndex, `transactionStateReader, `inSystemCall, `transactionTransient,
               `transactionKeccakPreimages, `latestCallEnterSuicided
      ensures transaction == null && transactionLogIndex == 0 && !transactionStateReader && !inSystemCall
      ensures transactionTransient == null && transactionKeccakPreimages == [] && !latestCallEnterSuicided
    {
      transaction := null;
      transactionLogIndex := 0;
      transactionStateReader := false;
      inSystemCall := false;
      transactionTransient := null;
      transactionKeccakPreimages := [];
      latestCallEnterSuicided := false;
    }

    method Reset()
      requires Valid()
      modifies `transaction, `transactionLogIndex, `transactionStateReader, `inSystemCall, `transactionTransient,
               `transactionKeccakPreimages, `latestCallEnterSuicided, callStack, deferredCallState
      ensures Valid() && View() == ResetTransaction(old(View())) && transactionTransient == null
    {
      hide WorkOf, WorkView, SavedView, SnapshotView, BlockView, LiveValid, SavedValid, SnapshotValid;
      ForgetTransaction();
    }

    /** Recovers the authorities; a failed recovery leaves the authority empty and discards. */
    method RecoverAuthorities(signers: seq<(Bytes, nat)>) returns (auths: seq<Auth>)
      ensures auths == AuthsOf(signers)
    {
      auths := [];
      for i := 0 to |signers|
        invariant |auths| == i && forall k :: 0 <= k < i ==> auths[k] == AuthsOf(signers)[k]
      {
        auths := auths + [Auth(signers[i].0, signers[i].1, |signers[i].0| == 0)];
      }
    }

    method Begin(trx: Transaction, reader: bool)
      requires Valid() && transaction == null && trx in Live && trx.calls == []
      modifies `transaction, `transactionStateReader
      ensures Valid() && View() == old(View()).(work := old(View()).work.(trx := Some(trx.View()), reader := reader))
    {
      hide StoredSnapshot, Call.View, Transaction.View, DeferredCallState.View;
      transaction := trx;
      transactionStateReader := reader;
      assert SavedView() == old(SavedView()) && SnapshotView() == old(SnapshotView());
    }

    method StartTransaction(info: TxInfo, auths: seq<Auth>, reader: bool, begin: nat)
      requires Valid() && transaction == null
      modifies Repr
      ensures Valid() && fresh(Repr - old(Repr)) && block == old(block)
      ensures View() == old(View()).(work := old(View()).work.(trx := Some(NewTx(info, auths, begin)),
                                                               reader := reader))
    {
      hide WorkOf, StoredSnapshot, View, Transaction.View;
      var trx := new Transaction(info, auths, begin);
      Adopt(trx);
      Begin(trx, reader);
    }

    method OnTxStart(info: TxInfo, signers: seq<(Bytes, nat)>, reader: bool) returns (r: Result<()>)
      requires Valid()
      modifies Repr
      ensures Follows(StepTxStart(old(View()), info, signers, reader), r)
      ensures r.Ok? ==> fresh(Repr - old(Repr)) && block == old(block)
    {
      hide WorkOf, StoredSnapshot, View, Transaction.View, Valid;
      Shows();
      Owns();
      if block == null || transaction != null || callStack.HasActiveCall() {
        return Panic;
      }
      var begin := NextOrdinal();
      var auths := RecoverAuthorities(signers);
      StartTransaction(info, auths, reader, begin);
      return Ok(());
    }

    // -------------------------------------------------------------- the end of a transaction

    method Complete(receipt: Option<Receipt>) returns (r: Result<()>)
      requires Valid() && transaction != null
      modifies transaction, transaction.calls, deferredCallState, blockOrdinal
      ensures Follows(Completed(config, old(View()), receipt), r)
    {
      hide StoredSnapshot, Completion.Complete, EndedWork, Call.View, Fits;
      forall i | 0 <= i < |transaction.calls| ensures transaction.calls[i] in Live {
      }
      r := EndWork(config, transaction, callStack, deferredCallState, Live, transactionKeccakPreimages, receipt,
                   blockOrdinal);
      assert SavedValid() && SavedView() == old(SavedView());
      assert SnapshotValid() && SnapshotView() == old(SnapshotView());
    }

    method AppendTrace()
      requires Valid() && block != null && transaction != null
      modifies block
      ensures Valid() && View() == old(View()).(block := Some(AddTx(old(View()).block.value,
                                                                    old(View()).work.trx.value)))
    {
      hide FitsIn, SnapshotIn, OpenBlock.View, AddTx, Call.View, Transaction.View;
      ghost var before := block.View();
      AddTrace(block, transaction.View());
      assert SnapshotValid() && SnapshotView() == old(SnapshotView()) by {
        if snapshotForNextFlashBlock.Some? && snapshotForNextFlashBlock.value.block == block {
          SnapshotUnaffected(snapshotForNextFlashBlock.value, before, block.View());
        }
      }
      assert WorkView() == old(WorkView()) && SavedView() == old(SavedView());
    }

    method SetDropped(dropped: bool)
      requires Valid()
      modifies `transactionDropped
      ensures Valid() && View() == old(View()).(dropped := dropped)
    {
      hide WorkOf, StoredSnapshot;
      transactionDropped := dropped;
      assert WorkView() == old(WorkView()) && SavedView() == old(SavedView()) && SnapshotView() == old(SnapshotView());
    }

    /** An isolated tracer keeps its completed transaction for the commit. */
    method KeepTransient()
      requires Valid() && transaction != null
      modifies `transactionTransient
      ensures Valid() && View() == old(View()).(ended := true)
    {
      hide WorkOf, StoredSnapshot;
      transactionTransient := transaction;
      assert WorkView() == old(WorkView()) && SavedView() == old(SavedView()) && SnapshotView() == old(SnapshotView());
    }

    method ForgetPreimages()
      requires Valid()
      modifies `transactionKeccakPreimages
      ensures Valid() && View() == old(View()).(work := old(View()).work.(preimages := []))
    {
      hide StoredSnapshot, Transaction.View, Call.View, DeferredCallState.View;
      transactionKeccakPreimages := [];
      assert SavedView() == old(SavedView()) && SnapshotView() == old(SnapshotView());
    }

    method HandOver(hadCalls: bool)
      requires Valid() && block != null && transaction != null
      modifies Repr
      ensures Valid() && Repr == old(Repr) && block == old(block) && View() == HandedOver(old(View()), hadCalls)
    {
      hide WorkOf, StoredSnapshot, View, AddTx, Valid;
      Shows();
      Owns();
      if transactionIsolated {
        if hadCalls {
          ForgetPreimages();
        }
        KeepTransient();
      } else {
        AppendTrace();
        Reset();
      }
    }

    method OnTxEnd(receipt: Option<Receipt>) returns (r: Result<()>)
      requires Valid()
      modifies Repr
      ensures Follows(StepTxEnd(config, old(View()), receipt), r)
      ensures r.Ok? ==> Repr == old(Repr) && block == old(block)
    {
      hide WorkOf, StoredSnapshot, View, StepTxEnd, Completed, HandedOver, Valid;
      Shows();
      Owns();
      TxEndCases(config, View(), receipt);
      if block == null || transaction == null {
        return Panic;
      }
      if receipt.None? && config.dropWithoutReceipt {
        if transactionIsolated {
          SetDropped(true);
        } else {
          Reset();
        }
        return Ok(());
      }
      var hasCalls := |transaction.calls| > 0;
      r := Complete(receipt);
      if r.Panic? {
        return;
      }
      HandOver(hasCalls);
    }

    // -------------------------------------------------------------- system calls

    /** Keeps the current transaction aside with its call stack and deferred state, and goes on with others. */
    method SetAside(stack: CallStack, deferred: DeferredCallState)
      requires Valid() && transaction != null && {stack, deferred} <= Repr && {stack, deferred} !! Live
      modifies `interruptedTransaction, `callStack, `deferredCallState, `Live, `Saved
      ensures Shell() && callStack == stack && deferredCallState == deferred
      ensures SavedView() == Some(old(WorkView())) && BlockView() == old(BlockView())
              && SnapshotView() == old(SnapshotView())
    {
      hide WorkOf, StoredSnapshot;
      SetAsideFields(stack, deferred);
    }

    method SetAsideFields(stack: CallStack, deferred: DeferredCallState)
      requires transaction != null
      modifies `interruptedTransaction, `callStack, `deferredCallState, `Live, `Saved
      ensures interruptedTransaction == Some(Interrupted(transaction, transactionLogIndex, transactionStateReader,
        transactionKeccakPreimages, old(callStack), old(deferredCallState), latestCallEnterSuicided))
      ensures callStack == stack && deferredCallState == deferred && Saved == old(Live) && Live == {stack, deferred}
    {
      interruptedTransaction := Some(Interrupted(transaction, transactionLogIndex, transactionStateReader,
                                                 transactionKeccakPreimages, callStack, deferredCallState,
                                                 latestCallEnterSuicided));
      callStack := stack;
      deferredCallState := deferred;
      Saved := Live;
      Live := {stack, deferred};
    }

    method SwitchTo(stack: CallStack, deferred: DeferredCallState)
      requires Valid() && transaction != null && {stack, deferred} <= Repr && {stack, deferred} !! Live
      modifies this, stack, deferred
      ensures Valid() && Repr == old(Repr) && transaction == null && block == old(block)
      ensures View() == ResetTransaction(old(View())).(saved := Some(old(View()).work))
    {
      hide WorkOf, WorkView, SavedView, SnapshotView, BlockView, LiveValid, SavedValid, SnapshotValid;
      SetAside(stack, deferred);
      ForgetTransaction();
    }

    /** The new call stack and deferred state come before the reset: emptying the old ones would lose what
        is set aside. */
    method InterruptTransaction()
      requires Valid() && transaction != null
      modifies Repr
      ensures Valid() && fresh(Repr - old(Repr)) && transaction == null && block == old(block)
      ensures View() == ResetTransaction(old(View())).(saved := Some(old(View()).work))
    {
      hide WorkOf, View;
      var stack := new CallStack();
      var deferred := new DeferredCallState();
      Reach({stack, deferred});
      SwitchTo(stack, deferred);
    }

    method BeginSystem(trx: Transaction)
      requires Valid() && trx in Live && trx.calls == [] && transactionTransient == null
      modifies `transaction, `inSystemCall
      ensures Valid() && View() == old(View()).(inSystemCall := true,
                                                work := old(View()).work.(trx := Some(trx.View())))
    {
      hide StoredSnapshot, Call.View, Transaction.View, DeferredCallState.View;
      inSystemCall := true;
      transaction := trx;
      assert SavedView() == old(SavedView()) && SnapshotView() == old(SnapshotView());
    }

    method StartSystem()
      requires Valid() && transaction == null
      modifies Repr
      ensures Valid() && fresh(Repr - old(Repr)) && block == old(block)
      ensures View() == old(View()).(inSystemCall := true, work := old(View()).work.(trx := Some(SYSTEM_TX)))
    {
      hide WorkOf, StoredSnapshot, View, Transaction.View;
      var trx := new Transaction(SYSTEM_TX.info, [], 0);
      Adopt(trx);
      BeginSystem(trx);
    }

    method OnSystemCallStart() returns (r: Result<()>)
      requires Valid()
      modifies Repr
      ensures Follows(StepSysStart(old(View())), r)
      ensures r.Ok? ==> fresh(Repr - old(Repr)) && block == old(block)
    {
      hide WorkOf, StoredSnapshot, View, Transaction.View, Valid;
      Shows();
      Owns();
      if block == null {
        return Panic;
      }
      if transaction != null {
        if inSystemCall {
          return Panic;
        }
        InterruptTransaction();
      }
      StartSystem();
      return Ok(());
    }

    method AttachPreimages()
      requires Valid() && transaction != null
      modifies transaction.calls
      ensures Valid() && View() == old(View()).(work := WithExplainedCalls(old(View()).work))
    {
      hide WorkOf, StoredSnapshot, WithExplainedCalls;
      forall i | 0 <= i < |transaction.calls| ensures transaction.calls[i] in Live {
      }
      ExplainCalls(transaction, callStack, deferredCallState, Live, transactionKeccakPreimages);
      assert SavedValid() && SavedView() == old(SavedView());
      assert SnapshotValid() && SnapshotView() == old(SnapshotView());
    }

    method AppendSystemCalls()
      requires Valid() && block != null && transaction != null
      modifies block
      ensures Valid() && View() == old(View()).(block := Some(AddSystemCalls(old(View()).block.value,
                                                                             old(View()).work.trx.value.calls)))
    {
      hide FitsIn, SnapshotIn, OpenBlock.View, AddSystemCalls, Call.View;
      ghost var before := block.View();
      AddCalls(block, Views(transaction.calls));
      assert SnapshotValid() && SnapshotView() == old(SnapshotView()) by {
        if snapshotForNextFlashBlock.Some? && snapshotForNextFlashBlock.value.block == block {
          SnapshotUnaffected(snapshotForNextFlashBlock.value, before, block.View());
        }
      }
      assert WorkView() == old(WorkView()) && SavedView() == old(SavedView());
    }

    method ResumeFields()
      requires interruptedTransaction.Some?
      modifies `interruptedTransaction, `transaction, `transactionLogIndex, `transactionStateReader,
               `transactionKeccakPreimages, `callStack, `deferredCallState, `latestCallEnterSuicided, `Live, `Saved
      ensures var s := old(interruptedTransaction.value);
        transaction != null
        && s == Interrupted(transaction, transactionLogIndex, transactionStateReader, transactionKeccakPreimages,
                            callStack, deferredCallState, latestCallEnterSuicided)
      ensures interruptedTransaction == None && Live == old(Saved) && Saved == {}
    {
      var s := interruptedTransaction.value;
      interruptedTransaction := None;
      transaction := s.transaction;
      transactionLogIndex := s.logIndex;
      transactionStateReader := s.reader;
      transactionKeccakPreimages := s.preimages;
      callStack := s.callStack;
      deferredCallState := s.deferred;
      latestCallEnterSuicided := s.suicided;
      Live, Saved := Saved, {};
    }

    method ResumeObjects()
      requires Valid() && interruptedTransaction.Some? && transactionTransient == null
      modifies `interruptedTransaction, `transaction, `transactionLogIndex, `transactionStateReader,
               `transactionKeccakPreimages, `callStack, `deferredCallState, `latestCallEnterSuicided, `Live, `Saved
      ensures Shell() && LiveValid() && WorkView() == old(SavedView()).value && SavedView() == None
      ensures BlockView() == old(BlockView()) && SnapshotView() == old(SnapshotView())
    {
      hide WorkOf, StoredSnapshot;
      ResumeFields();
      assert LiveValid();
      assert SnapshotValid() && SnapshotView() == old(SnapshotView());
    }

    /** Brings back the transaction that was set aside, the very objects. */
    method ResumeTransaction()
      requires Valid() && interruptedTransaction.Some? && transactionTransient == null
      modifies this
      ensures Valid() && Repr == old(Repr) && block == old(block)
              && View() == old(View()).(work := old(View()).saved.value, saved := None)
    {
      hide WorkOf, Shell, SavedView, SnapshotView, BlockView, LiveValid, SavedValid, SnapshotValid, WorkView;
      ResumeObjects();
    }

    method MaybeResume()
      requires Valid() && transactionTransient == null
      modifies this
      ensures Valid() && Repr == old(Repr) && block == old(block) && View() == Resumed(old(View()))
    {
      hide WorkOf, StoredSnapshot, View, Valid;
      Shows();
      Owns();
      if interruptedTransaction.Some? {
        ResumeTransaction();
      }
    }

    method FileSystemCalls()
      requires Valid() && block != null && transaction != null
      modifies transaction.calls, block
      ensures Valid() && View() == Filed(old(View()))
    {
      hide WorkOf, StoredSnapshot, View, WithExplainedCalls, AddSystemCalls, Valid;
      Shows();
      Owns();
      AttachPreimages();
      Shows();
      AppendSystemCalls();
    }

    method OnSystemCallEnd() returns (r: Result<()>)
      requires Valid()
      modifies Repr
      ensures Follows(StepSysEnd(old(View())), r)
      ensures r.Ok? ==> Repr == old(Repr) && block == old(block)
    {
      hide WorkOf, StoredSnapshot, View, StepSysEnd, Filed, Resumed, Valid;
      Shows();
      Owns();
      SysEndCases(View());
      if block == null || transaction == null {
        return Panic;
      }
      if !inSystemCall || deferredCallState.HasCallOnlyChanges() {
        return Panic;
      }
      FileSystemCalls();
      Reset();
      MaybeResume();
      return Ok(());
    }

    // -------------------------------------------------------------- blocks

    lemma ShowsFlash()
      requires Valid()
      ensures var s := View();
        && s.flash == flash && s.finality == blockFinality && (s.snapshot.None? <==> snapshotForNextFlashBlock.None?)
        && (s.snapshot.Some? ==> s.snapshot.value.number == snapshotForNextFlashBlock.value.block.info.number
                                 && s.snapshot.value.flashIndex == snapshotForNextFlashBlock.value.flashIndex)
    {
      hide WorkOf;
    }

    method DiscardSnapshot()
      requires Valid()
      modifies `snapshotForNextFlashBlock
      ensures Valid() && snapshotForNextFlashBlock == None && View() == old(View()).(snapshot := None)
    {
      hide WorkOf, StoredSnapshot;
      snapshotForNextFlashBlock := None;
      assert WorkView() == old(WorkView()) && SavedView() == old(SavedView());
    }

    method SetFlash(flash: Flash)
      requires Valid()
      modifies `flash
      ensures Valid() && View() == old(View()).(flash := Some(flash))
    {
      hide WorkOf, StoredSnapshot;
      this.flash := Some(flash);
      assert WorkView() == old(WorkView()) && SavedView() == old(SavedView()) && SnapshotView() == old(SnapshotView());
    }

    /** Validates the order of flash iterations and drops a snapshot of another block. */
    method HandleFlashBlockStart(flash: Flash, number: nat) returns (r: Result<()>)
      requires Valid()
      modifies `snapshotForNextFlashBlock, `flash
      ensures var c := CheckedSnapshot(old(View()).snapshot, flash, number);
        r.Ok? == c.Ok? && (r.Ok? ==> Valid() && View() == old(View()).(snapshot := c.value, flash := Some(flash)))
    {
      hide WorkOf, View, StoredSnapshot;
      ShowsFlash();
      if snapshotForNextFlashBlock.Some? {
        if snapshotForNextFlashBlock.value.block.info.number == number {
          if flash.idx <= snapshotForNextFlashBlock.value.flashIndex {
            return Panic;
          }
        } else {
          DiscardSnapshot();
        }
      }
      SetFlash(flash);
      return Ok(());
    }

    method SetRules(prague: bool, finality: nat)
      requires Valid()
      modifies `isPrague, `blockFinality
      ensures Valid() && View() == old(View()).(prague := prague, finality := finality)
    {
      hide WorkOf, StoredSnapshot;
      isPrague := prague;
      blockFinality := finality;
      assert WorkView() == old(WorkView()) && SavedView() == old(SavedView()) && SnapshotView() == old(SnapshotView());
    }

    method SetGenesis()
      requires Valid()
      modifies `blockIsGenesis
      ensures Valid() && View() == old(View()).(genesis := true)
    {
      hide WorkOf, StoredSnapshot;
      blockIsGenesis := true;
      assert WorkView() == old(WorkView()) && SavedView() == old(SavedView()) && SnapshotView() == old(SnapshotView());
    }

    method SetBlock(block: OpenBlock)
      requires Valid() && block in Repr
      modifies `block
      ensures Valid() && this.block == block && View() == old(View()).(block := Some(block.View()))
    {
      hide WorkOf, StoredSnapshot, OpenBlock.View;
      this.block := block;
      assert WorkView() == old(WorkView()) && SavedView() == old(SavedView()) && SnapshotView() == old(SnapshotView());
    }

    method StartBlock(info: BlockInfo, prague: bool, finalized: Option<nat>)
      requires Valid()
      modifies Repr
      ensures Valid() && fresh(Repr - old(Repr)) && block != null
      ensures snapshotForNextFlashBlock.Some? ==> snapshotForNextFlashBlock.value.block != block
      ensures View() == BlockOpened(old(View()), info, prague, finalized)
    {
      hide WorkOf, View, OpenBlock.View;
      ShowsFlash();
      ghost var snap := snapshotForNextFlashBlock;
      assert snap.Some? ==> snap.value.block in Repr;
      var opened' := new OpenBlock(info);
      Reach({opened'});
      SetRules(prague, if finalized.Some? then finalized.value else blockFinality);
      SetBlock(opened');
    }

    method RestoreFlashBlockSnapshot()
      requires Valid() && block != null
      requires snapshotForNextFlashBlock.Some? ==> snapshotForNextFlashBlock.value.block != block
      modifies block, blockOrdinal
      ensures Valid() && View() == SnapshotRestored(old(View()))
    {
      hide WorkOf;
      if flash.None? || snapshotForNextFlashBlock.None? {
        return;
      }
      var snap := snapshotForNextFlashBlock.value;
      RestoreLists(block, snap);
      blockOrdinal.Restore(snap.ordinal);
      assert WorkView() == old(WorkView()) && SavedView() == old(SavedView());
      assert SnapshotValid() && SnapshotView() == old(SnapshotView());
    }

    method OnBlockStart(info: BlockInfo, prague: bool, flash: Option<Flash>, finalized: Option<nat>)
        returns (r: Result<()>)
      requires Valid()
      modifies Repr
      ensures Follows(StepBlockStart(old(View()), info, prague, flash, finalized), r)
      ensures r.Ok? ==> fresh(Repr - old(Repr))
    {
      hide WorkOf, View, StepBlockStart, CheckedSnapshot, BlockOpened, SnapshotRestored;
      BlockStartCases(View(), info, prague, flash, finalized);
      if flash.Some? {
        r := HandleFlashBlockStart(flash.value, info.number);
        if r.Panic? {
          return;
        }
      }
      StartBlock(info, prague, finalized);
      RestoreFlashBlockSnapshot();
      return Ok(());
    }

    method ResetBlockFields()
      modifies `block, `blockFinality, `isPrague, `blockIsGenesis, `interruptedTransaction, `flash
      ensures block == null && blockFinality == 0 && !isPrague && !blockIsGenesis && interruptedTransaction == None
              && flash == None
    {
      block := null;
      blockFinality := 0;
      isPrague := false;
      blockIsGenesis := false;
      interruptedTransaction := None;
      flash := None;
    }

    /** Forgets the block, but not the snapshot for the next flash iteration. */
    method ForgetBlockFields()
      requires Valid()
      modifies `block, `blockFinality, `isPrague, `blockIsGenesis, `interruptedTransaction, `flash
      ensures Valid() && WorkView() == old(WorkView()) && SnapshotView() == old(SnapshotView())
      ensures BlockView() == None && SavedView() == None && blockFinality == 0 && !isPrague && !blockIsGenesis
              && flash == None
    {
      hide WorkOf, StoredSnapshot, Fits;
      ResetBlockFields();
      assert LiveValid() && WorkView() == old(WorkView());
      assert SavedView() == None && SnapshotView() == old(SnapshotView());
    }

    method ForgetBlock()
      requires Valid()
      modifies `block, `blockFinality, `isPrague, `blockIsGenesis, `interruptedTransaction, `flash, blockOrdinal
      ensures Valid() && View() == ResetBlock(old(View()))
    {
      RestartOrdinals();
      hide WorkOf, Shell, SavedView, SnapshotView, BlockView, LiveValid, WorkView;
      ForgetBlockFields();
    }

    method PushOutput()
      requires Valid() && block != null
      modifies `output
      ensures Valid()
      ensures var s := old(View()); View() == s.(output := s.output + [Output(s.block.value, s.finality, s.flash)])
    {
      hide WorkOf, StoredSnapshot, OpenBlock.View;
      output := output + [Output(block.View(), blockFinality, flash)];
      assert WorkView() == old(WorkView()) && SavedView() == old(SavedView()) && SnapshotView() == old(SnapshotView());
    }

    method ForgetBlockAndTransaction()
      requires Valid()
      modifies this, blockOrdinal, callStack, deferredCallState
      ensures Valid() && Repr == old(Repr) && View() == ResetTransaction(ResetBlock(old(View())))
    {
      hide View, ResetBlock, ResetTransaction;
      ForgetBlock();
      Reset();
    }

    method OnBlockEnd(failed: bool) returns (r: Result<()>)
      requires Valid()
      modifies Repr
      ensures Follows(StepBlockEnd(old(View()), failed), r)
      ensures r.Ok? ==> Repr == old(Repr)
    {
      hide WorkOf, StoredSnapshot, Valid, View, ResetBlock, ResetTransaction;
      Shows();
      Owns();
      ShowsFlash();
      if !failed {
        if block == null || transaction != null {
          return Panic;
        }
        PushOutput();
      } else {
        if block == null {
          return Panic;
        }
        if flash.Some? {
          DiscardSnapshot();
        }
      }
      ForgetBlockAndTransaction();
      return Ok(());
    }

    /** A skipped block is traced as any other, but without hooks in between. */
    method OnSkippedBlock(info: BlockInfo, prague: bool, flash: Option<Flash>, finalized: Option<nat>)
        returns (r: Result<()>)
      requires Valid()
      modifies Repr
      ensures var s := old(View());
        Follows(if s.work.trx.Some? then Panic
                else match StepBlockStart(s, info, prague, flash, finalized)
                  case Panic => Panic
                  case Ok(s1) => StepBlockEnd(s1, false), r)
      ensures r.Ok? ==> fresh(Repr - old(Repr))
    {
      hide WorkOf, StoredSnapshot, View, StepBlockStart, StepBlockEnd, Valid;
      Shows();
      Owns();
      if transaction != null {
        return Panic;
      }
      r := OnBlockStart(info, prague, flash, finalized);
      if r.Panic? {
        return;
      }
      r := OnBlockEnd(false);
    }

    method PointSnapshot()
      requires Valid() && block != null && flash.Some?
      modifies `snapshotForNextFlashBlock
      ensures Follows(StepSnapshot(old(View())), Ok(()))
    {
      hide WorkOf;
      snapshotForNextFlashBlock := Some(SnapshotRef(block, |block.txs|, |block.systemCalls|, |block.balanceChanges|,
                                                    |block.codeChanges|, blockOrdinal.Peek(), flash.value.idx));
      assert WorkView() == old(WorkView()) && SavedView() == old(SavedView());
      WholeSnapshot(snapshotForNextFlashBlock.value);
    }

    /** Remembers how far the block has come: a reference to it and the lengths of its lists. */
    method SnapshotFlashBlockForNextIteration() returns (r: Result<()>)
      requires Valid()
      modifies Repr
      ensures Follows(StepSnapshot(old(View())), r)
      ensures r.Ok? ==> Repr == old(Repr) && block == old(block)
    {
      hide WorkOf, StoredSnapshot, View, Valid;
      Shows();
      Owns();
      ShowsFlash();
      if flash.None? {
        return Ok(());
      }
      if block == null {
        return Panic;
      }
      PointSnapshot();
      return Ok(());
    }

    // -------------------------------------------------------------- isolated tracers

    method ClearForRetry()
      modifies `transaction, `transactionLogIndex, `transactionStateReader, `transactionTransient, `transactionDropped,
               `latestCallEnterSuicided
      ensures transaction == null && transactionLogIndex == 0 && !transactionStateReader
      ensures transactionTransient == null && !transactionDropped && !latestCallEnterSuicided
    {
      transaction := null;
      transactionStateReader := false;
      transactionLogIndex := 0;
      transactionTransient := null;
      transactionDropped := false;
      latestCallEnterSuicided := false;
    }

    method ForgetAttempt()
      requires Valid()
      modifies `transaction, `transactionLogIndex, `transactionStateReader, `transactionTransient, `transactionDropped,
               `latestCallEnterSuicided, callStack, deferredCallState
      ensures Valid() && WorkView() == FRESH.(preimages := old(WorkView()).preimages)
      ensures transactionTransient == null && !transactionDropped
      ensures BlockView() == old(BlockView()) && SavedView() == old(SavedView())
              && SnapshotView() == old(SnapshotView())
    {
      hide WorkOf, StoredSnapshot;
      ShowsPreimages();
      EmptyStacks();
      ClearForRetry();
      EmptyWork(callStack, deferredCallState, Live, transactionKeccakPreimages);
      assert SavedValid() && SavedView() == old(SavedView());
      assert SnapshotValid() && SnapshotView() == old(SnapshotView());
    }

    method RestartOrdinals()
      requires Valid()
      modifies blockOrdinal
      ensures Valid() && View() == old(View()).(ordinal := 0)
    {
      hide WorkOf, StoredSnapshot;
      blockOrdinal.Reset();
    }

    method Retry()
      requires Valid() && transactionIsolated
      modifies this, callStack, deferredCallState
      ensures Valid() && Repr == old(Repr) && block == old(block)
      ensures var s := old(View());
        View() == s.(work := FRESH.(preimages := s.work.preimages), ended := false, dropped := false)
    {
      hide WorkOf, SavedView, SnapshotView, BlockView, LiveValid, SavedValid, SnapshotValid;
      ForgetAttempt();
    }

    /** Makes an isolated tracer ready for another attempt; the recorded preimages, the system-call flag and
        an interrupted transaction are not cleared. */
    method OnTxReset() returns (r: Result<()>)
      requires Valid()
      modifies Repr
      ensures Follows(StepTxReset(old(View())), r)
      ensures r.Ok? ==> Repr == old(Repr) && block == old(block)
    {
      hide WorkOf, StoredSnapshot, View, Valid;
      Shows();
      Owns();
      if !transactionIsolated {
        return Panic;
      }
      Retry();
      RestartOrdinals();
      return Ok(());
    }

    /** A new isolated tracer, on the same block object. */
    method OnTxSpawn() returns (r: Result<Tracer>)
      requires Valid()
      ensures r.Ok? <==> !transactionIsolated && block != null
      ensures r.Ok? ==>
        var t := r.value;
        t.Valid() && fresh(t.Repr - {block}) && t.block == block && t.config == config && t.View() == Spawned(View())
    {
      hide WorkOf, StoredSnapshot, OpenBlock.View, View, Valid;
      Shows();
      Owns();
      ShowsFlash();
      if transactionIsolated || block == null {
        return Panic;
      }
      var t := NewIsolatedTransactionTracer(config, block, blockFinality, isPrague);
      return Ok(t);
    }

    method Rebase(base: nat) returns (end: nat)
      requires Valid() && transaction != null
      modifies transaction, transaction.calls
      ensures Valid() && View() == old(View()).(work := Rebased(old(View()).work, base))
              && end == View().work.trx.value.endOrdinal
    {
      hide StoredSnapshot, Rebased, Call.View;
      forall i | 0 <= i < |transaction.calls| ensures transaction.calls[i] in Live {
      }
      end := RebaseWork(transaction, callStack, deferredCallState, Live, base);
      assert SavedValid() && SavedView() == old(SavedView());
      assert SnapshotValid() && SnapshotView() == old(SnapshotView());
    }

    method SetOrdinal(v: nat)
      requires Valid()
      modifies blockOrdinal
      ensures Valid() && View() == old(View()).(ordinal := v)
    {
      hide WorkOf, StoredSnapshot;
      blockOrdinal.Set(v);
    }

    /** The views after a commit; `false` is an error returned to the caller. A block of the isolated tracer's that is
        not the coordinator's stays as it is. */
    ghost predicate Commits(isolated: Tracer, step: Result<World>, r: Result<bool>)
      requires step.Ok? ==> 0 in step.value.iso
      reads this, Repr, isolated, isolated.Repr
    {
      && r.Ok? == step.Ok?
      && (r.Ok? ==> Valid() && isolated.Valid()
                    && View() == step.value.coord && isolated.View() == InBlockOf(isolated, step.value.iso[0]))
    }

    ghost function InBlockOf(isolated: Tracer, i: State): State
      requires Valid()
      reads this, Repr, isolated
    {
      if isolated.block == block then i.(block := View().block) else i
    }

    /** Two tracers own nothing in common but the block of the isolated one, whether or not this one is in it now. */
    ghost predicate ShareBlock(isolated: Tracer)
      reads this, isolated
    {
      forall o :: o in Repr && o in isolated.Repr ==> o == isolated.block
    }

    lemma OnlyBlockShared(isolated: Tracer)
      requires Valid() && isolated.Valid() && ShareBlock(isolated)
      ensures isolated != this && isolated !in Repr && this !in isolated.Repr && blockOrdinal !in isolated.Repr
      ensures isolated.transaction != null ==> isolated.transaction in isolated.Repr - Repr
      ensures isolated.transaction != null ==> InsideOnly(isolated.transaction.calls, isolated.Repr, Repr)
    {
    }

    /** The shift happens on the isolated tracer's own objects. */
    method RebaseIsolated(isolated: Tracer, base: nat) returns (trx: TxTrace)
      requires Valid() && isolated.Valid() && ShareBlock(isolated) && isolated.transaction != null
      modifies isolated.transaction, isolated.transaction.calls
      ensures Valid() && View() == old(View()) && isolated.Valid()
      ensures isolated.View() == old(isolated.View()).(work := Rebased(old(isolated.View()).work, base))
      ensures trx == isolated.View().work.trx.value
    {
      hide WorkOf, View, Valid, Rebased;
      OnlyBlockShared(isolated);
      var _ := isolated.Rebase(base);
      isolated.Shows();
      trx := isolated.transaction.View();
    }

    method ConcludeCommit(isolated: Tracer, end: nat)
      requires Valid() && isolated.Valid() && ShareBlock(isolated)
      modifies blockOrdinal, isolated`transactionTransient
      ensures Valid() && View() == old(View()).(ordinal := end)
      ensures isolated.Valid() && isolated.View() == old(isolated.View()).(ended := false)
    {
      hide WorkOf, View, Valid;
      OnlyBlockShared(isolated);
      SetOrdinal(end);
      isolated.ReleaseTransient();
    }

    method AppendCommitted(isolated: Tracer, trx: TxTrace)
      requires Valid() && isolated.Valid() && ShareBlock(isolated) && block != null
      modifies blockOrdinal, block, isolated`transactionTransient
      ensures Valid() && isolated.Valid() && old(View()).block.Some?
      ensures View() == old(View()).(block := Some(AddTx(old(View()).block.value, trx)), ordinal := trx.endOrdinal)
      ensures isolated.View() == InBlockOf(isolated, old(isolated.View()).(ended := false))
    {
      hide WorkOf, StoredSnapshot, View, Valid, AddTx;
      Shows();
      Owns();
      AppendShared(this, isolated, trx);
      ConcludeCommit(isolated, trx.endOrdinal);
    }

    method CommitTransient(isolated: Tracer)
      requires Valid() && isolated.Valid() && ShareBlock(isolated) && block != null && isolated.transaction != null
      modifies blockOrdinal, block, isolated.transaction, isolated.transaction.calls, isolated`transactionTransient
      ensures Valid() && isolated.Valid()
      ensures var c, i := old(View()), old(isolated.View()); var w := Rebased(i.work, c.ordinal);
        && View() == c.(block := Some(AddTx(c.block.value, w.trx.value)), ordinal := w.trx.value.endOrdinal)
        && isolated.View() == InBlockOf(isolated, i.(work := w, ended := false))
    {
      hide WorkOf, StoredSnapshot, View, Valid, Rebased, AddTx;
      Shows();
      Owns();
      isolated.Shows();
      isolated.Owns();
      var trx := RebaseIsolated(isolated, blockOrdinal.Peek());
      AppendCommitted(isolated, trx);
    }

    /** Commits the isolated tracer's completed transaction: shifts it in place and appends it to the block. */
    method OnTxCommit(isolated: Tracer) returns (r: Result<bool>)
      requires Valid() && isolated.Valid() && ShareBlock(isolated)
      modifies Repr, isolated.Repr
      ensures Commits(isolated, if transactionIsolated || !isolated.transactionIsolated
                                then Ok(World(old(View()), map[0 := old(isolated.View())]))
                                else CommitOf(old(View()), old(isolated.View())), r)
      ensures transactionIsolated || !isolated.transactionIsolated ==> r == Ok(false)
      ensures r.Ok? ==> Repr == old(Repr) && isolated.Repr == old(isolated.Repr)
      ensures r.Ok? ==> block == old(block) && isolated.block == old(isolated.block)
    {
      hide WorkOf, StoredSnapshot, View, Valid, WorkView, SavedView, SnapshotView, Call.View, Rebased, AddTx, CommitOf;
      ShowsMarks();
      Owns();
      isolated.ShowsMarks();
      isolated.Owns();
      CommitCases(View(), isolated.View());
      OnlyBlockShared(isolated);
      if transactionIsolated {
        return Ok(false);
      }
      if !isolated.transactionIsolated {
        return Ok(false);
      }
      if isolated.transactionDropped {
        isolated.SetDropped(false);
        return Ok(true);
      }
      if isolated.transactionTransient == null {
        return Ok(false);
      }
      if block == null {
        return Panic;
      }
      CommitTransient(isolated);
      return Ok(true);
    }

    method ReleaseTransient()
      requires Valid()
      modifies `transactionTransient
      ensures Valid() && View() == old(View()).(ended := false)
    {
      hide WorkOf, StoredSnapshot;
      transactionTransient := null;
      assert WorkView() == old(WorkView()) && SavedView() == old(SavedView()) && SnapshotView() == old(SnapshotView());
    }
  }

  /** Appends to the block two tracers share; nothing else shows in either. */
  method AppendShared(t: Tracer, i: Tracer, trx: TxTrace)
    requires t.Valid() && i.Valid() && t.block != null && (i.block == t.block || t.block !in i.Repr)
    modifies t.block
    ensures t.Valid() && i.Valid()
    ensures t.View() == old(t.View()).(block := Some(AddTx(old(t.View()).block.value, trx)))
    ensures i.View() == t.InBlockOf(i, old(i.View()))
  {
    hide WorkOf, FitsIn, SnapshotIn, OpenBlock.View, AddTx;
    ghost var before := t.block.View();
    AddTrace(t.block, trx);
    assert t.SnapshotValid() && t.SnapshotView() == old(t.SnapshotView()) by {
      if t.snapshotForNextFlashBlock.Some? && t.snapshotForNextFlashBlock.value.block == t.block {
        SnapshotUnaffected(t.snapshotForNextFlashBlock.value, before, t.block.View());
      }
    }
    assert i.SnapshotValid() && i.SnapshotView() == old(i.SnapshotView()) by {
      if i.snapshotForNextFlashBlock.Some? && i.snapshotForNextFlashBlock.value.block == t.block {
        SnapshotUnaffected(i.snapshotForNextFlashBlock.value, before, t.block.View());
      }
    }
    assert t.WorkView() == old(t.WorkView()) && t.SavedView() == old(t.SavedView());
    assert i.WorkView() == old(i.WorkView()) && i.SavedView() == old(i.SavedView());
  }

  method NewTracer(config: Config) returns (t: Tracer)
    ensures t.Valid() && fresh(t.Repr) && t.config == config && t.View() == INITIAL
  {
    hide WorkOf, Owned, StoredSnapshot, Fits;
    t := new Tracer(config, false, null, 0, false);
    t.ForgetTransaction();
  }

  method NewIsolatedTransactionTracer(config: Config, block: OpenBlock, finality: nat, isPrague: bool)
      returns (t: Tracer)
    ensures t.Valid() && fresh(t.Repr - {block}) && t.block == block && t.config == config
    ensures t.View() == INITIAL.(block := Some(block.View()), prague := isPrague, finality := finality,
                                 isolated := true)
  {
    hide WorkOf, Owned, StoredSnapshot, Fits, OpenBlock.View;
    t := new Tracer(config, true, block, finality, isPrague);
    t.ForgetTransaction();
  }
}
