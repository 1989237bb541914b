/** The records a trace is made of (the protobuf messages the tracer fills) and the elementary
    operations on them. Payloads nothing depends on are kept whole; ordinals, call numbering, status
    flags and change lists are modelled field by field. */
module Model {
  import opened Bytes
  import opened Wrappers
  import KeccakFilter

  type Recorded = KeccakFilter.Recorded

  // ---------------------------------------------------------------- changes

  datatype LogData = LogData(addr: Bytes, topics: seq<Bytes>, data: Bytes)

  datatype Body =
    | Balance(addr: Bytes, oldBalance: nat, newBalance: nat, reason: nat)
    | Nonce(addr: Bytes, oldNonce: nat, newNonce: nat)
    | Code(addr: Bytes, oldHash: Word, newHash: Word, oldCode: Bytes, newCode: Bytes)
    | Storage(addr: Bytes, key: Word, oldValue: Word, newValue: Word)
    | Log(log: LogData, index: nat, blockIndex: nat)

  /** What the balance, nonce, code and storage hooks report. */
  type StateChange = b: Body | !b.Log? witness Nonce([], 0, 0)

  const REASON_UNKNOWN := 0

  /** The early returns of the change hooks: nothing changed, or the reason is unknown. */
  predicate IsNoOp(b: StateChange) {
    match b
    case Balance(_, o, n, reason) => reason == REASON_UNKNOWN || o == n
    case Nonce(_, o, n) => o == n
    case Code(_, o, n, _, _) => o == n
    case Storage(_, _, o, n) => o == n
  }

  datatype Change = Change(ordinal: nat, body: Body)

  /** The per-kind change lists of a call, and of the deferred state. */
  datatype Lists = Lists(balance: seq<Change>, nonce: seq<Change>, code: seq<Change>,
                         storage: seq<Change>, logs: seq<Change>)

  const NO_CHANGES := Lists([], [], [], [], [])

  function AddTo(l: Lists, c: Change): Lists {
    match c.body
    case Balance(_, _, _, _) => l.(balance := l.balance + [c])
    case Nonce(_, _, _) => l.(nonce := l.nonce + [c])
    case Code(_, _, _, _, _) => l.(code := l.code + [c])
    case Storage(_, _, _, _) => l.(storage := l.storage + [c])
    case Log(_, _, _) => l.(logs := l.logs + [c])
  }

  function Concat(a: Lists, b: Lists): Lists {
    Lists(a.balance + b.balance, a.nonce + b.nonce, a.code + b.code, a.storage + b.storage, a.logs + b.logs)
  }

  lemma ConcatEmpty(l: Lists)
    ensures Concat(NO_CHANGES, l) == l && Concat(l, NO_CHANGES) == l
  {
  }

  // ---------------------------------------------------------------- calls

  datatype CallKind = Call | CallCode | Delegate | Static | Create | Unspecified

  const SELFDESTRUCT: Byte := 0xff

  function KindOf(typ: Byte): CallKind {
    if typ == 0xf0 then Create
    else if typ == 0xf1 then Call
    else if typ == 0xf2 then CallCode
    else if typ == 0xf4 then Delegate
    else if typ == 0xf5 then Create
    else if typ == 0xfa then Static
    else Unspecified
  }

  /** The arguments of a call entry. `delegation` is what the state reader and the delegation
      parser find for the callee. */
  datatype Frame = Frame(typ: Byte, caller: Bytes, address: Bytes, input: Bytes, gas: nat, value: nat,
                         delegation: Option<Bytes>)

  /** The arguments of a call exit; `err` is the chain of wrapped error messages, empty for no error. */
  datatype Exit = Exit(output: Bytes, gasUsed: nat, err: seq<string>, reverted: bool)

  const EXECUTION_REVERTED := "execution reverted"
  const INSUFFICIENT_BALANCE := "insufficient balance for transfer"
  const MAX_CALL_DEPTH := "max call depth exceeded"

  datatype CallRec = CallRec(
    frame: Frame, kind: CallKind, delegatesTo: Option<Bytes>,
    index: nat, depth: nat, parentIndex: nat,
    beginOrdinal: nat, endOrdinal: nat,
    gasConsumed: nat, returnData: Bytes, failureReason: string,
    statusFailed: bool, statusReverted: bool, stateReverted: bool,
    suicide: bool, executedCode: bool,
    lists: Lists, keccak: map<Word, Bytes>)

  /** The call record built on entry, before the call stack numbers it. */
  function NewCall(frame: Frame, delegatesTo: Option<Bytes>, beginOrdinal: nat, lists: Lists): CallRec {
    CallRec(frame, KindOf(frame.typ), delegatesTo, 0, 0, 0, beginOrdinal, 0, 0, [], "",
            false, false, false, false, false, lists, map[])
  }

  /** Numbering by the call stack: `parentIndex` is the index of the call on top, zero when there is none. */
  function Numbered(c: CallRec, index: nat, depth: nat, parentIndex: nat): CallRec {
    c.(index := index, depth := depth, parentIndex := parentIndex)
  }

  /** Errors that make a failed call a reverted one. */
  predicate CostsNoGas(err: seq<string>) {
    EXECUTION_REVERTED in err || INSUFFICIENT_BALANCE in err || MAX_CALL_DEPTH in err
  }

  function Closed(c: CallRec, x: Exit, endOrdinal: nat): CallRec {
    var c1 := c.(gasConsumed := x.gasUsed, endOrdinal := endOrdinal,
                 returnData := if c.kind == Create then c.returnData else x.output);
    if x.reverted then
      c1.(failureReason := if |x.err| > 0 then x.err[0] else "", statusFailed := true,
          statusReverted := CostsNoGas(x.err))
    else c1
  }

  // ---------------------------------------------------------------- transactions

  datatype TxInfo = TxInfo(hash: Bytes, sender: Bytes, to: Bytes, nonce: nat)

  /** An EIP-7702 authorization; `authority` is the recovered signer, empty when recovery failed. */
  datatype Auth = Auth(authority: Bytes, nonce: nat, discarded: bool)

  datatype ReceiptLog = ReceiptLog(log: LogData, blockIndex: nat, ordinal: nat, index: nat)

  /** Receipt data handed over at the end of a transaction. */
  datatype Receipt = Receipt(index: nat, gasUsed: nat, status: nat, logs: seq<(LogData, nat)>)

  datatype TxReceipt = TxReceipt(logs: seq<ReceiptLog>)

  datatype TxStatus = UnknownStatus | Succeeded | Failed | Reverted

  datatype TxTrace = TxTrace(
    info: TxInfo, auths: seq<Auth>, beginOrdinal: nat, endOrdinal: nat,
    calls: seq<CallRec>, index: nat, gasUsed: nat, receipt: Option<TxReceipt>,
    status: TxStatus, returnData: Bytes)

  function NewTx(info: TxInfo, auths: seq<Auth>, beginOrdinal: nat): TxTrace {
    TxTrace(info, auths, beginOrdinal, 0, [], 0, 0, None, UnknownStatus, [])
  }

  const SYSTEM_TX := NewTx(TxInfo([], [], [], 0), [], 0)

  // ---------------------------------------------------------------- blocks

  datatype BlockInfo = BlockInfo(number: nat, hash: Bytes, header: Bytes)

  datatype Block = Block(info: BlockInfo, txs: seq<TxTrace>, systemCalls: seq<CallRec>,
                         balanceChanges: seq<Change>, codeChanges: seq<Change>)

  /** `neverReverted` marks logs that stay in the receipt when their call is reverted. */
  datatype Config = Config(dropWithoutReceipt: bool, neverReverted: LogData -> bool)
}
