/** What `completeTransaction` computes (tracer.go:1130-1383), stage by stage. */
module Completion {
  import opened Bytes
  import opened Wrappers
  import opened Model
  import opened Sorting
  import KeccakFilter

  function CallIndex(c: CallRec): int { c.index }
  function ChangeOrdinal(c: Change): int { c.ordinal }

  function SortCalls(calls: seq<CallRec>): seq<CallRec> { Sort(CallIndex, calls) }

  // ---------------------------------------------------------------- EIP-7702 authorizations

  const NONCE_RANGE := 0x1_0000_0000_0000_0000

  /** The nonce change that applying an authorization makes; nonces are 64-bit. */
  predicate Matches(c: Change, a: Auth) {
    && c.body.Nonce? && c.body.addr == a.authority
    && c.body.oldNonce == a.nonce && c.body.newNonce == (a.nonce + 1) % NONCE_RANGE
  }

  /** The first matching nonce change at or after position `from` that is not used yet. */
  function FindNonceChange(changes: seq<Change>, used: set<nat>, a: Auth, from: nat): (r: Option<nat>)
    decreases |changes| - from
  {
    if from >= |changes| then None
    else if Matches(changes[from], a) && from !in used then Some(from)
    else FindNonceChange(changes, used, a, from + 1)
  }

  /** The nonce changes used up once `r` is taken. */
  function WithUsed(used: set<nat>, r: Option<nat>): set<nat> { if r.Some? then used + {r.value} else used }

  /** Processes authorizations in order, each taking a nonce change of its own or being discarded. */
  function Discard(auths: seq<Auth>, changes: seq<Change>, used: set<nat>): (r: seq<Auth>) {
    if |auths| == 0 then []
    else
      var a := auths[0];
      if |a.authority| == 0 then [a.(discarded := true)] + Discard(auths[1..], changes, used)
      else match FindNonceChange(changes, used, a, 0)
        case None => [a.(discarded := true)] + Discard(auths[1..], changes, used)
        case Some(i) => [a] + Discard(auths[1..], changes, used + {i})
  }

  // ---------------------------------------------------------------- preimages

  function StorageKeys(changes: seq<Change>): seq<Bytes> {
    if |changes| == 0 then []
    else StorageKeys(changes[..|changes| - 1])
         + if changes[|changes| - 1].body.Storage? then [changes[|changes| - 1].body.key] else []
  }

  function AllStorageKeys(calls: seq<CallRec>): seq<Bytes> {
    if |calls| == 0 then [] else AllStorageKeys(calls[..|calls| - 1]) + StorageKeys(calls[|calls| - 1].lists.storage)
  }

  function OfCall(recorded: seq<Recorded>, callIndex: nat): seq<Recorded> {
    if |recorded| == 0 then []
    else (if recorded[0].callIndex == callIndex then [recorded[0]] else []) + OfCall(recorded[1..], callIndex)
  }

  /** The preimages a call keeps: the first one it recorded of each kept hash it hashed. */
  ghost function Explained(kept: set<Word>, recorded: seq<Recorded>, callIndex: nat): map<Word, Bytes> {
    var own := OfCall(recorded, callIndex);
    map h | h in kept && h in KeccakFilter.Hashes(own) :: KeccakFilter.FirstPreimage(own, h)
  }

  /** Preimages are looked up by call index; among calls sharing one, the last gets them. */
  predicate LastWithIndex(calls: seq<CallRec>, i: nat)
    requires i < |calls|
  {
    forall j :: i < j < |calls| ==> calls[j].index != calls[i].index
  }

  ghost function WithPreimages(c: CallRec, kept: set<Word>, recorded: seq<Recorded>): CallRec {
    c.(keccak := Explained(kept, recorded, c.index) + c.keccak)
  }

  ghost function Attach(calls: seq<CallRec>, recorded: seq<Recorded>): (r: seq<CallRec>)
    ensures |r| == |calls|
  {
    var kept := KeccakFilter.Kept(AllStorageKeys(calls), recorded);
    seq(|calls|, i requires 0 <= i < |calls| =>
      if LastWithIndex(calls, i) then WithPreimages(calls[i], kept, recorded) else calls[i])
  }

  // ---------------------------------------------------------------- reverted state

  /** The next call of `calls` after `done`, marked from its parent's mark and its own failure. */
  function NextMarked(calls: seq<CallRec>, done: seq<CallRec>): CallRec
    requires |done| < |calls| && calls[|done|].parentIndex <= |calls|
  {
    var c := calls[|done|];
    var inherited := c.parentIndex > 0 && (done + calls[|done|..])[c.parentIndex - 1].stateReverted;
    c.(stateReverted := inherited || c.statusFailed)
  }

  /** Propagates reverts over `calls`, given the result `done` for the calls before position `|done|`;
      looking up a parent beyond the list panics. */
  function Propagate(calls: seq<CallRec>, done: seq<CallRec>): (r: Result<seq<CallRec>>)
    requires |done| <= |calls|
    ensures r.Ok? ==> |r.value| == |calls|
    decreases |calls| - |done|
  {
    if |done| == |calls| then Ok(done)
    else if calls[|done|].parentIndex > |calls| then Panic
    else Propagate(calls, done + [NextMarked(calls, done)])
  }

  // ---------------------------------------------------------------- logs

  predicate NeverReverted(cfg: Config, c: Change) { c.body.Log? && cfg.neverReverted(c.body.log) }

  function ClearLog(cfg: Config): Change -> Change {
    (c: Change) => if c.body.Log? && !cfg.neverReverted(c.body.log) then c.(body := c.body.(blockIndex := 0)) else c
  }

  function ClearCall(cfg: Config): CallRec -> CallRec {
    (c: CallRec) => if c.stateReverted then c.(lists := c.lists.(logs := MapSeq(ClearLog(cfg), c.lists.logs))) else c
  }

  /** Logs of reverted calls lose their block index, unless they are never reverted. */
  function ClearReverted(cfg: Config, calls: seq<CallRec>): (r: seq<CallRec>)
    ensures |r| == |calls|
  {
    MapSeq(ClearCall(cfg), calls)
  }

  function KeepNeverReverted(cfg: Config, logs: seq<Change>): seq<Change> {
    if |logs| == 0 then []
    else KeepNeverReverted(cfg, logs[..|logs| - 1])
         + if NeverReverted(cfg, logs[|logs| - 1]) then [logs[|logs| - 1]] else []
  }

  function SurvivingOf(cfg: Config, c: CallRec): seq<Change> {
    if c.stateReverted then KeepNeverReverted(cfg, c.lists.logs) else c.lists.logs
  }

  function Surviving(cfg: Config, calls: seq<CallRec>): seq<Change> {
    if |calls| == 0 then [] else Surviving(cfg, calls[..|calls| - 1]) + SurvivingOf(cfg, calls[|calls| - 1])
  }

  /** Copies ordinals and indexes from the sorted call logs to the receipt logs; a different number
      of logs or a different block index panics. */
  function AssignReceipt(sorted: seq<Change>, logs: seq<ReceiptLog>): Result<seq<ReceiptLog>> {
    if |sorted| != |logs| then Panic
    else if exists i :: 0 <= i < |logs| && (!sorted[i].body.Log? || sorted[i].body.blockIndex != logs[i].blockIndex)
    then Panic
    else Ok(seq(|logs|, i requires 0 <= i < |logs| && sorted[i].body.Log? =>
              logs[i].(ordinal := sorted[i].ordinal, index := sorted[i].body.index)))
  }

  function NewReceipt(r: Receipt): TxReceipt {
    TxReceipt(seq(|r.logs|, i requires 0 <= i < |r.logs| => ReceiptLog(r.logs[i].0, r.logs[i].1, 0, 0)))
  }

  // ---------------------------------------------------------------- the whole

  predicate HasCallOnlyChanges(l: Lists) { |l.logs| > 0 || |l.storage| > 0 }

  function StatusOf(before: TxStatus, receipt: Option<Receipt>, rootReverted: bool): TxStatus {
    if rootReverted then Reverted
    else match receipt
      case None => before
      case Some(r) => if r.status == 1 then Succeeded else Failed
  }

  /** Calls in index order, the leftover deferred changes on the first root call, preimages attached. */
  ghost function ArrangedCalls(calls: seq<CallRec>, leftover: Lists, recorded: seq<Recorded>): (r: seq<CallRec>)
    requires |calls| > 0
    ensures |r| == |calls|
  {
    SortOrders(CallIndex, calls);
    var sorted := SortCalls(calls);
    Attach(sorted[0 := sorted[0].(lists := Concat(sorted[0].lists, leftover))], recorded)
  }

  function ReceiptBefore(trx: TxTrace, receipt: Option<Receipt>): Option<TxReceipt> {
    if receipt.Some? then Some(NewReceipt(receipt.value)) else trx.receipt
  }

  function LogsOf(receipt: Option<TxReceipt>): seq<ReceiptLog> {
    if receipt.Some? then receipt.value.logs else []
  }

  /** Log pairing: the surviving call logs, in ordinal order, against the receipt's logs. */
  function PairLogs(cfg: Config, calls: seq<CallRec>, receipt: Option<TxReceipt>): Result<Option<TxReceipt>> {
    var logs :- AssignReceipt(Sort(ChangeOrdinal, Surviving(cfg, calls)), LogsOf(receipt));
    Ok(if receipt.Some? then Some(TxReceipt(logs)) else None)
  }

  function Finish(trx: TxTrace, auths: seq<Auth>, calls: seq<CallRec>, given: Option<Receipt>,
                  receipt: Option<TxReceipt>, endOrdinal: nat): TxTrace
    requires |calls| > 0
  {
    trx.(auths := auths, calls := calls,
         index := if given.Some? then given.value.index else trx.index,
         gasUsed := if given.Some? then given.value.gasUsed else trx.gasUsed,
         receipt := receipt,
         status := StatusOf(trx.status, given, calls[0].statusReverted),
         returnData := calls[0].returnData,
         endOrdinal := endOrdinal)
  }

  /** Reverts propagated, block indexes of reverted logs removed. */
  function SettledCalls(cfg: Config, arranged: seq<CallRec>): (r: Result<seq<CallRec>>)
    ensures r.Ok? ==> |r.value| == |arranged|
  {
    var propagated :- Propagate(arranged, []);
    Ok(ClearReverted(cfg, propagated))
  }

  ghost function Complete(cfg: Config, trx: TxTrace, leftover: Lists, recorded: seq<Recorded>,
                          receipt: Option<Receipt>, endOrdinal: nat): Result<TxTrace>
  {
    if |trx.calls| == 0 then
      if HasCallOnlyChanges(leftover) then Panic else Ok(trx.(endOrdinal := endOrdinal))
    else
      var calls :- SettledCalls(cfg, ArrangedCalls(trx.calls, leftover, recorded));
      var paired :- PairLogs(cfg, calls, ReceiptBefore(trx, receipt));
      Ok(Finish(trx, CheckedAuths(trx), calls, receipt, paired, endOrdinal))
  }

  /** Authorizations are checked against the root call's nonce changes before the leftover is added to it. */
  function CheckedAuths(trx: TxTrace): seq<Auth>
    requires |trx.calls| > 0
  {
    SortOrders(CallIndex, trx.calls);
    Discard(trx.auths, SortCalls(trx.calls)[0].lists.nonce, {})
  }
}
