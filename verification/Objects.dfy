/** The mutable objects of the tracer: the ordinal counter, calls, the call stack, the deferred state,
    transactions and blocks (ordinal.go, callstack.go, deferred_call_state.go and the protobuf records).
    Each object has a view, the value of the specification it stands for. */
module Objects {
  import opened Bytes
  import opened Wrappers
  import opened Model
  import opened Machine

  // ---------------------------------------------------------------- ordinal.go

  class Ordinal {
    var value: nat

    constructor ()
      ensures value == 0
    {
      value := 0;
    }

    method Next() returns (r: nat)
      modifies this
      ensures r == value == old(value) + 1
    {
      value := value + 1;
      r := value;
    }

    function Peek(): nat
      reads this
    {
      value
    }

    method Set(v: nat)
      modifies this
      ensures value == v
    {
      value := v;
    }

    method Reset()
      modifies this
      ensures value == 0
    {
      value := 0;
    }

    method Restore(v: nat)
      modifies this
      ensures value == v
    {
      value := v;
    }
  }

  // ---------------------------------------------------------------- calls

  class Call {
    const frame: Frame
    const kind: CallKind
    const delegatesTo: Option<Bytes>
    var index: nat
    var depth: nat
    var parentIndex: nat
    var beginOrdinal: nat
    var endOrdinal: nat
    var gasConsumed: nat
    var returnData: Bytes
    var failureReason: string
    var statusFailed: bool
    var statusReverted: bool
    var stateReverted: bool
    var suicide: bool
    var executedCode: bool
    var balanceChanges: seq<Change>
    var nonceChanges: seq<Change>
    var codeChanges: seq<Change>
    var storageChanges: seq<Change>
    var logs: seq<Change>
    var keccak: map<Word, Bytes>

    function ListsView(): Lists
      reads this
    {
      Lists(balanceChanges, nonceChanges, codeChanges, storageChanges, logs)
    }

    function View(): CallRec
      reads this
    {
      CallRec(frame, kind, delegatesTo, index, depth, parentIndex, beginOrdinal, endOrdinal, gasConsumed, returnData,
              failureReason, statusFailed, statusReverted, stateReverted, suicide, executedCode, ListsView(), keccak)
    }

    constructor (frame: Frame, delegatesTo: Option<Bytes>, beginOrdinal: nat)
      ensures View() == NewCall(frame, delegatesTo, beginOrdinal, NO_CHANGES)
    {
      this.frame, this.delegatesTo, this.beginOrdinal := frame, delegatesTo, beginOrdinal;
      kind := KindOf(frame.typ);
      index, depth, parentIndex, endOrdinal, gasConsumed := 0, 0, 0, 0, 0;
      returnData, failureReason := [], "";
      statusFailed, statusReverted, stateReverted, suicide, executedCode := false, false, false, false, false;
      balanceChanges, nonceChanges, codeChanges, storageChanges, logs, keccak := [], [], [], [], [], map[];
    }
  }

  method SetLists(call: Call, l: Lists)
    modifies call
    ensures call.View() == old(call.View()).(lists := l)
  {
    call.balanceChanges := l.balance;
    call.nonceChanges := l.nonce;
    call.codeChanges := l.code;
    call.storageChanges := l.storage;
    call.logs := l.logs;
  }

  /** Appends a change to the list of its kind. */
  method Append(call: Call, c: Change)
    modifies call
    ensures call.View() == old(call.View()).(lists := AddTo(old(call.ListsView()), c))
  {
    hide AddTo;
    SetLists(call, AddTo(call.ListsView(), c));
  }

  /** What the exit hook sets on the call it closes. */
  method Close(call: Call, x: Exit, end: nat)
    modifies call
    ensures call.View() == Closed(old(call.View()), x, end)
  {
    hide CostsNoGas;
    Returned(call, x);
    if x.reverted {
      Failed(call, if |x.err| > 0 then x.err[0] else "", CostsNoGas(x.err));
    }
    call.endOrdinal := end;
  }

  method Returned(call: Call, x: Exit)
    modifies call
    ensures call.View() == old(call.View()).(gasConsumed := x.gasUsed,
                                   returnData := if call.kind == Create then old(call.returnData)
                                                 else x.output)
  {
    call.gasConsumed := x.gasUsed;
    call.returnData := if call.kind == Create then call.returnData else x.output;
  }

  method Failed(call: Call, reason: string, reverted: bool)
    modifies call
    ensures call.View() == old(call.View()).(failureReason := reason, statusFailed := true, statusReverted := reverted)
  {
    call.failureReason := reason;
    call.statusFailed := true;
    call.statusReverted := reverted;
  }

  method Number(call: Call, index: nat, depth: nat, parent: Call?)
    requires parent != call
    modifies call
    ensures call.View() == Numbered(old(call.View()), index, depth,
                                    if parent == null then old(call.parentIndex) else parent.index)
  {
    call.index := index;
    call.depth := depth;
    if parent != null {
      call.parentIndex := parent.index;
    }
  }

  function Views(calls: seq<Call>): (r: seq<CallRec>)
    reads calls
    ensures |r| == |calls|
    ensures forall i :: 0 <= i < |calls| ==> r[i] == calls[i].View()
  {
    seq(|calls|, i requires 0 <= i < |calls| reads calls => calls[i].View())
  }

  /** What a call's view says of its fields. */
  lemma Fields(c: Call)
    ensures var v := c.View();
      && v.index == c.index && v.parentIndex == c.parentIndex && v.lists == c.ListsView() && v.keccak == c.keccak
      && v.statusFailed == c.statusFailed && v.statusReverted == c.statusReverted && v.stateReverted == c.stateReverted
      && v.returnData == c.returnData && v.suicide == c.suicide
  {
  }

  /** After changing one call of a list, the views are those before with that one replaced. */
  lemma OneChanged(calls: seq<Call>, before: seq<CallRec>, i: nat)
    requires i < |calls| == |before| && forall j :: 0 <= j < |calls| && j != i ==> calls[j].View() == before[j]
    ensures Views(calls) == before[i := calls[i].View()]
  {
  }

  /** No object twice. */
  predicate Separate(calls: seq<Call>) {
    forall i, j :: 0 <= i < j < |calls| ==> calls[i] != calls[j]
  }

  // ---------------------------------------------------------------- callstack.go

  class CallStack {
    var stack: seq<Call>
    var index: nat
    var depth: nat

    ghost predicate Valid()
      reads this
    {
      depth == |stack| && Separate(stack)
    }

    constructor ()
      ensures Valid() && stack == [] && index == 0
    {
      stack, index, depth := [], 0, 0;
    }

    /** Numbers the call and puts it on top; its parent is the call that was on top. */
    method Push(call: Call)
      requires Valid() && call !in stack
      modifies this, call
      ensures Valid() && stack == old(stack) + [call] && index == old(index) + 1
      ensures call.View() == Numbered(old(call.View()), old(index) + 1, |old(stack)|,
                                      if |old(stack)| == 0 then old(call.parentIndex)
                                      else old(stack[|stack| - 1].index))
    {
      index := index + 1;
      Number(call, index, depth, Peek());
      depth := depth + 1;
      stack := stack + [call];
    }

    /** Removes and returns the top call, `null` when there is none. */
    method Pop() returns (call: Call?)
      requires Valid()
      modifies this
      ensures Valid() && index == old(index)
      ensures |old(stack)| == 0 ==> call == null && stack == []
      ensures |old(stack)| > 0 ==> call == old(stack)[|old(stack)| - 1] && stack == old(stack)[..|old(stack)| - 1]
    {
      if |stack| == 0 {
        return null;
      }
      call := stack[|stack| - 1];
      stack := stack[..|stack| - 1];
      depth := depth - 1;
    }

    function Peek(): Call?
      reads this
    {
      if |stack| == 0 then null else stack[|stack| - 1]
    }

    predicate HasActiveCall()
      reads this
    {
      |stack| > 0
    }

    method Reset()
      modifies this
      ensures Valid() && stack == [] && index == 0
    {
      stack, index, depth := [], 0, 0;
    }
  }

  // ---------------------------------------------------------------- deferred_call_state.go

  /** Where deferred changes are moved to a call from: before the root call, or at the end of the transaction. */
  datatype Source = FromEnter | FromRoot | FromElsewhere

  class DeferredCallState {
    var balanceChanges: seq<Change>
    var nonceChanges: seq<Change>
    var codeChanges: seq<Change>
    var storageChanges: seq<Change>
    var logs: seq<Change>

    function View(): Lists
      reads this
    {
      Lists(balanceChanges, nonceChanges, codeChanges, storageChanges, logs)
    }

    constructor ()
      ensures View() == NO_CHANGES
    {
      balanceChanges, nonceChanges, codeChanges, storageChanges, logs := [], [], [], [], [];
    }

    predicate IsEmpty()
      reads this
      ensures IsEmpty() <==> View() == NO_CHANGES
    {
      |balanceChanges| == 0 && |nonceChanges| == 0 && |codeChanges| == 0 && |storageChanges| == 0 && |logs| == 0
    }

    predicate HasCallOnlyChanges()
      reads this
    {
      |logs| > 0 || |storageChanges| > 0
    }

    method Reset()
      modifies this
      ensures View() == NO_CHANGES
    {
      balanceChanges, nonceChanges, codeChanges, storageChanges, logs := [], [], [], [], [];
    }

    /** Adds a change to the list of its kind. */
    method Add(c: Change)
      modifies this
      ensures View() == AddTo(old(View()), c)
    {
      match c.body
      case Balance(_, _, _, _) => balanceChanges := balanceChanges + [c];
      case Nonce(_, _, _) => nonceChanges := nonceChanges + [c];
      case Code(_, _, _, _, _) => codeChanges := codeChanges + [c];
      case Storage(_, _, _, _) => storageChanges := storageChanges + [c];
      case Log(_, _, _) => logs := logs + [c];
    }

    /** Moves the deferred changes to a call, in front of its own or behind them, so that each list stays in
        chronological order; an unknown source is an error unless there is nothing to move. */
    method MaybePopulateCallAndReset(source: Source, call: Call) returns (ok: bool)
      modifies this, call
      ensures ok <==> old(IsEmpty()) || source != FromElsewhere
      ensures !ok ==> View() == old(View()) && call.View() == old(call.View())
      ensures ok ==> View() == NO_CHANGES && call.View() == old(call.View()).(lists :=
        if source == FromEnter then Concat(old(View()), old(call.ListsView()))
        else Concat(old(call.ListsView()), old(View())))
    {
      hide Concat;
      if IsEmpty() {
        ConcatEmpty(call.ListsView());
        assert call.View() == call.View().(lists := call.ListsView());
        return true;
      }
      if source == FromElsewhere {
        return false;
      }
      if source == FromEnter {
        SetLists(call, Concat(View(), call.ListsView()));
      } else {
        SetLists(call, Concat(call.ListsView(), View()));
      }
      Reset();
      return true;
    }
  }

  // ---------------------------------------------------------------- transactions and blocks

  class Transaction {
    const info: TxInfo
    var auths: seq<Auth>
    var beginOrdinal: nat
    var endOrdinal: nat
    var calls: seq<Call>
    var index: nat
    var gasUsed: nat
    var receipt: Option<TxReceipt>
    var status: TxStatus
    var returnData: Bytes

    function View(): TxTrace
      reads this, calls
    {
      TxTrace(info, auths, beginOrdinal, endOrdinal, Views(calls), index, gasUsed, receipt, status, returnData)
    }

    constructor (info: TxInfo, auths: seq<Auth>, beginOrdinal: nat)
      ensures View() == NewTx(info, auths, beginOrdinal) && calls == []
    {
      this.info, this.auths, this.beginOrdinal := info, auths, beginOrdinal;
      endOrdinal, calls, index, gasUsed := 0, [], 0, 0;
      receipt, status, returnData := None, UnknownStatus, [];
    }
  }

  /** A block under construction. Records are appended by value: nothing changes them afterwards. */
  class OpenBlock {
    const info: BlockInfo
    var txs: seq<TxTrace>
    var systemCalls: seq<CallRec>
    var balanceChanges: seq<Change>
    var codeChanges: seq<Change>

    function View(): Block
      reads this
    {
      Block(info, txs, systemCalls, balanceChanges, codeChanges)
    }

    constructor (info: BlockInfo)
      ensures View() == NewBlock(info)
    {
      this.info := info;
      txs, systemCalls, balanceChanges, codeChanges := [], [], [], [];
    }
  }
}
