/** What the hook calls of a forest say of its calls, read off them directly: opcodes, exits, errors and changes as
    they were reported, with every constant written out. Nothing here refers to how the tracer computes it; that the
    tracer's calls are these is proved in `Told`. */
module Reading {
  import opened Bytes
  import opened Wrappers
  import opened Model
  import opened Machine
  import opened Forest
  import KeccakFilter

  // ---------------------------------------------------------------- which events report something

  /** A balance change counts when its reason is known and the balance is another one. */
  function BalancesIn(es: seq<TxEvent>): seq<Body> {
    if |es| == 0 then []
    else
      var e := es[|es| - 1];
      BalancesIn(es[..|es| - 1])
      + if e.Changed? && e.change.Balance? && e.change.reason != 0 && e.change.oldBalance != e.change.newBalance
        then [Balance(e.change.addr, e.change.oldBalance, e.change.newBalance, e.change.reason)] else []
  }

  function NoncesIn(es: seq<TxEvent>): seq<Body> {
    if |es| == 0 then []
    else
      var e := es[|es| - 1];
      NoncesIn(es[..|es| - 1])
      + if e.Changed? && e.change.Nonce? && e.change.oldNonce != e.change.newNonce
        then [Nonce(e.change.addr, e.change.oldNonce, e.change.newNonce)] else []
  }

  function StoragesIn(es: seq<TxEvent>): seq<Body> {
    if |es| == 0 then []
    else
      var e := es[|es| - 1];
      StoragesIn(es[..|es| - 1])
      + if e.Changed? && e.change.Storage? && e.change.oldValue != e.change.newValue
        then [Storage(e.change.addr, e.change.key, e.change.oldValue, e.change.newValue)] else []
  }

  /** The SELFDESTRUCT opcode was executed without error. */
  predicate Destructs(es: seq<TxEvent>) {
    exists i :: 0 <= i < |es| && es[i] == Opcode(0xff, false)
  }

  /** An opcode was executed, or faulted. */
  predicate Executes(es: seq<TxEvent>) {
    exists i :: 0 <= i < |es| && (es[i].Opcode? || es[i].OpcodeFault?)
  }

  /** A code change counts when the hash is another one; within a call, the removal of code after SELFDESTRUCT does
      not. */
  function CodesIn(es: seq<TxEvent>, inCall: bool): seq<Body> {
    if |es| == 0 then []
    else
      var front, e := es[..|es| - 1], es[|es| - 1];
      CodesIn(front, inCall)
      + if e.Changed? && e.change.Code? && e.change.oldHash != e.change.newHash
           && !(inCall && Destructs(front) && |e.change.oldCode| > 0 && |e.change.newCode| == 0)
        then [Code(e.change.addr, e.change.oldHash, e.change.newHash, e.change.oldCode, e.change.newCode)] else []
  }

  /** Logs, with their indexes left open. */
  function LogsIn(es: seq<TxEvent>): seq<Body> {
    if |es| == 0 then []
    else
      var e := es[|es| - 1];
      LogsIn(es[..|es| - 1]) + if e.Emit? then [Log(e.log, 0, e.blockIndex)] else []
  }

  // ---------------------------------------------------------------- the calls

  /** A call as reported: its entry and exit, its number, depth and the number of the call around it; what was reported
      outside calls since the last root call (for a root call) and directly inside it; and whether its exit, or that
      of a call around it, was reported as reverted. */
  datatype Reported = Reported(frame: Frame, exit: Exit, index: nat, depth: nat, parent: nat,
                               before: seq<TxEvent>, own: seq<TxEvent>, reverted: bool)

  /** What is reported at the level of `f` itself. */
  function Direct(f: Items): seq<TxEvent> {
    match f
    case Done => []
    case Leaf(e, rest) => [e] + Direct(rest)
    case Destruct(_, _, leaves, _, rest) => leaves + Direct(rest)
    case Sub(_, _, _, rest) => Direct(rest)
  }

  function CallsIn(f: Items): nat {
    match f
    case Done => 0
    case Leaf(_, rest) => CallsIn(rest)
    case Destruct(_, _, _, _, rest) => CallsIn(rest)
    case Sub(_, inner, _, rest) => CallsIn(inner) + CallsIn(rest) + 1
  }

  /** The calls of `f` in the order of their entries, numbered from `next`. */
  function Reports(f: Items, depth: nat, parent: nat, next: nat, waiting: seq<TxEvent>, reverted: bool)
      : (os: seq<Reported>)
    ensures |os| == CallsIn(f)
  {
    match f
    case Done => []
    case Leaf(e, rest) =>
      Reports(rest, depth, parent, next, if depth == 0 then waiting + [e] else waiting, reverted)
    case Destruct(_, _, leaves, _, rest) =>
      Reports(rest, depth, parent, next, if depth == 0 then waiting + leaves else waiting, reverted)
    case Sub(frame, inner, exit, rest) =>
      [Reported(frame, exit, next, depth, parent, waiting, Direct(inner), reverted || exit.reverted)]
      + Reports(inner, depth + 1, next, next + 1, [], reverted || exit.reverted)
      + Reports(rest, depth, parent, next + 1 + CallsIn(inner), [], reverted)
  }

  /** What is reported outside calls after the last root call, or at all when there is none. */
  function Trailing(f: Items, waiting: seq<TxEvent>): seq<TxEvent> {
    match f
    case Done => waiting
    case Leaf(e, rest) => Trailing(rest, waiting + [e])
    case Destruct(_, _, leaves, _, rest) => Trailing(rest, waiting + leaves)
    case Sub(_, _, _, rest) => Trailing(rest, [])
  }

  /** The preimages of at most 256 bytes among the events of call `current`. */
  function HashedBy(es: seq<TxEvent>, current: nat): seq<Recorded> {
    if |es| == 0 then []
    else
      (if es[0].Keccak? && |es[0].preimage| <= 256
       then [KeccakFilter.Recorded(current, es[0].hash, es[0].preimage)] else [])
      + HashedBy(es[1..], current)
  }

  /** The same of all of `f`, inside call `current`, in the order of the reports. */
  function HashedIn(f: Items, current: nat, next: nat): seq<Recorded> {
    match f
    case Done => []
    case Leaf(e, rest) => HashedBy([e], current) + HashedIn(rest, current, next)
    case Destruct(_, _, leaves, _, rest) => HashedBy(leaves, current) + HashedIn(rest, current, next)
    case Sub(_, inner, _, rest) => HashedIn(inner, next, next + 1) + HashedIn(rest, current, next + 1 + CallsIn(inner))
  }

  // ---------------------------------------------------------------- what the record of a call says

  predicate KindIs(typ: Byte, kind: CallKind) {
    match kind
    case Create => typ == 0xf0 || typ == 0xf5
    case Call => typ == 0xf1
    case CallCode => typ == 0xf2
    case Delegate => typ == 0xf4
    case Static => typ == 0xfa
    case Unspecified => false
  }

  /** One of the errors that cost no gas is in the chain. */
  predicate Gasless(err: seq<string>) {
    exists i :: 0 <= i < |err|
      && (err[i] == "execution reverted" || err[i] == "insufficient balance for transfer"
          || err[i] == "max call depth exceeded")
  }

  /** Code designated by a delegation is looked up under Prague rules, in transactions with a state reader, for calls
      that create nothing. */
  predicate LooksUp(ctx: Ctx, reader: bool, frame: Frame) {
    ctx.prague && reader && !ctx.system && !ctx.genesis && frame.typ != 0xf0 && frame.typ != 0xf5
  }

  /** Entry, number and exit of `c` are as reported. */
  predicate FrameTold(ctx: Ctx, reader: bool, o: Reported, c: CallRec) {
    && c.frame == o.frame && KindIs(o.frame.typ, c.kind)
    && c.index == o.index && c.depth == o.depth && c.parentIndex == o.parent
    && (c.delegatesTo == if LooksUp(ctx, reader, o.frame) then o.frame.delegation else None)
    && c.gasConsumed == o.exit.gasUsed
    && (c.returnData == if o.frame.typ == 0xf0 || o.frame.typ == 0xf5 then [] else o.exit.output)
    && (c.statusFailed <==> o.exit.reverted)
    && (c.statusReverted <==> o.exit.reverted && Gasless(o.exit.err))
    && (c.failureReason == if o.exit.reverted && |o.exit.err| > 0 then o.exit.err[0] else "")
    && (c.executedCode <==> Executes(o.own)) && (c.suicide <==> Destructs(o.own))
  }

  predicate BodiesAre(s: seq<Change>, bodies: seq<Body>) {
    |s| == |bodies| && forall i :: 0 <= i < |s| ==> s[i].body == bodies[i]
  }

  /** `x` is the log `b`; its block index is kept, unless its call is reverted and the log is not one that never is. */
  predicate LogIs(cfg: Config, x: Change, b: Body, reverted: bool) {
    && x.body.Log? && b.Log? && x.body.log == b.log
    && x.body.blockIndex == if reverted && !cfg.neverReverted(b.log) then 0 else b.blockIndex
  }

  predicate LogsAre(cfg: Config, s: seq<Change>, bodies: seq<Body>, reverted: bool) {
    |s| == |bodies| && forall i :: 0 <= i < |s| ==> LogIs(cfg, s[i], bodies[i], reverted)
  }

  /** The lists of `c` hold what was reported before it, in it, and, for the first call, after the last one. */
  predicate ListsTold(cfg: Config, o: Reported, extra: seq<TxEvent>, reverted: bool, c: CallRec) {
    && BodiesAre(c.lists.balance, BalancesIn(o.before) + BalancesIn(o.own) + BalancesIn(extra))
    && BodiesAre(c.lists.nonce, NoncesIn(o.before) + NoncesIn(o.own) + NoncesIn(extra))
    && BodiesAre(c.lists.storage, StoragesIn(o.before) + StoragesIn(o.own) + StoragesIn(extra))
    && BodiesAre(c.lists.code, CodesIn(o.before, false) + CodesIn(o.own, true) + CodesIn(extra, false))
    && LogsAre(cfg, c.lists.logs, LogsIn(o.before) + LogsIn(o.own) + LogsIn(extra), reverted)
  }
}
