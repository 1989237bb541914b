/** Whole runs of the tracer object: any sequence of hook calls takes it where the state machine goes,
    and panics when the state machine does. Everything proved of runs of one tracer holds of the object. */
module Replay {
  import opened Wrappers
  import opened Model
  import opened Machine
  import opened Tracing

  method DeliverChange(t: Tracer, b: StateChange) returns (r: Result<()>)
    requires t.Valid()
    modifies t.Repr
    ensures t.Follows(StepTx(old(t.View()), Changed(b)), r)
    ensures r.Ok? ==> t.Repr == old(t.Repr) && t.block == old(t.block)
  {
    match b
    case Balance(addr, o, n, reason) => r := t.OnBalanceChange(addr, o, n, reason);
    case Nonce(addr, o, n) => r := t.OnNonceChange(addr, o, n);
    case Code(addr, oh, nh, oc, nc) => r := t.OnCodeChange(addr, oh, nh, oc, nc);
    case Storage(addr, key, o, n) => r := t.OnStorageChange(addr, key, o, n);
  }

  method DeliverTx(t: Tracer, e: TxEvent) returns (r: Result<()>)
    requires t.Valid()
    modifies t.Repr
    ensures t.Follows(StepTx(old(t.View()), e), r)
    ensures r.Ok? ==> fresh(t.Repr - old(t.Repr)) && t.block == old(t.block)
  {
    hide StepTx, Tracer.Valid, Tracer.View;
    match e
    case Enter(depth, frame) => r := t.OnCallEnter(depth, frame);
    case Leave(exit) => r := t.OnCallExit(exit);
    case Changed(b) => r := DeliverChange(t, b);
    case Emit(log, blockIndex) => r := t.OnLog(log, blockIndex);
    case Opcode(op, failed) => t.OnOpcode(op, failed); r := Ok(());
    case OpcodeFault => t.OnOpcodeFault(); r := Ok(());
    case Keccak(hash, preimage) => r := t.OnKeccakPreimage(hash, preimage);
  }

  method Deliver(t: Tracer, e: Event) returns (r: Result<()>)
    requires t.Valid()
    modifies t.Repr
    ensures t.Follows(Step(t.config, old(t.View()), e), r)
    ensures r.Ok? ==> fresh(t.Repr - old(t.Repr))
    ensures r.Ok? && !e.BlockStart? && !e.BlockEnd? ==> t.block == old(t.block)
  {
    hide StepBlockStart, StepBlockEnd, StepTxStart, StepTxEnd, StepTxReset, StepSysStart, StepSysEnd, StepSnapshot;
    hide StepTx;
    hide Tracer.Valid, Tracer.View;
    match e
    case BlockStart(info, prague, flash, finalized) => r := t.OnBlockStart(info, prague, flash, finalized);
    case BlockEnd(failed) => r := t.OnBlockEnd(failed);
    case TxStart(tx, signers, reader) => r := t.OnTxStart(tx, signers, reader);
    case TxEnd(receipt) => r := t.OnTxEnd(receipt);
    case TxReset => r := t.OnTxReset();
    case SysStart => r := t.OnSystemCallStart();
    case SysEnd => r := t.OnSystemCallEnd();
    case TakeSnapshot => r := t.SnapshotFlashBlockForNextIteration();
    case Tx(e) => r := DeliverTx(t, e);
  }

  /** Delivers events one after the other, until one panics. */
  method DeliverAll(t: Tracer, es: seq<Event>) returns (r: Result<()>)
    requires t.Valid()
    modifies t.Repr
    ensures t.Follows(Run(t.config, old(t.View()), es), r)
    ensures r.Ok? ==> fresh(t.Repr - old(t.Repr))
  {
    hide Step;
    for i := 0 to |es|
      invariant t.Valid() && fresh(t.Repr - old(t.Repr))
      invariant Run(t.config, t.View(), es[i..]) == Run(t.config, old(t.View()), es)
    {
      assert es[i..][0] == es[i] && es[i..][1..] == es[i + 1..];
      r := Deliver(t, es[i]);
      if r.Panic? {
        return;
      }
    }
    return Ok(());
  }
}
