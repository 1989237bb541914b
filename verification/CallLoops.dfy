/** The in-place loops of transaction completion and commit (tracer.go:1142-1383, 1926-2120), each proved to
    compute its stage of the specification. They rely on no call object occurring twice in a list: that is
    what makes each call be marked, cleared and shifted once. */
module CallLoops {
  import opened Bytes
  import opened Wrappers
  import opened Model
  import opened Sorting
  import opened Completion
  import opened Machine
  import opened Relabel
  import opened World
  import opened Objects

  // ---------------------------------------------------------------- sorting by index

  method InsertByIndex(sorted: seq<Call>, call: Call) returns (r: seq<Call>)
    ensures Views(r) == Insert(CallIndex, call.View(), Views(sorted))
    ensures multiset(r) == multiset(sorted) + multiset{call}
  {
    hide Call.View;
    var n := |sorted|;
    Fields(call);
    if n > 0 {
      Fields(sorted[n - 1]);
    }
    if n == 0 || sorted[n - 1].index <= call.index {
      r := sorted + [call];
    } else {
      var front := InsertByIndex(sorted[..n - 1], call);
      assert Views(sorted)[..n - 1] == Views(sorted[..n - 1]);
      assert sorted == sorted[..n - 1] + [sorted[n - 1]];
      r := front + [sorted[n - 1]];
    }
  }

  method SortByIndex(calls: seq<Call>) returns (r: seq<Call>)
    ensures Views(r) == SortCalls(Views(calls)) && multiset(r) == multiset(calls)
  {
    hide Call.View, Insert;
    r := [];
    for i := 0 to |calls|
      invariant Views(r) == SortCalls(Views(calls[..i])) && multiset(r) == multiset(calls[..i])
    {
      assert calls[..i + 1][..i] == calls[..i];
      assert Views(calls[..i + 1])[..i] == Views(calls[..i]);
      r := InsertByIndex(r, calls[i]);
      assert calls[..i + 1] == calls[..i] + [calls[i]];
    }
    assert calls[..|calls|] == calls;
  }

  // ---------------------------------------------------------------- reverted state and log block indexes

  method Mark(call: Call, inherited: bool)
    modifies call
    ensures call.View() == old(call.View()).(stateReverted := inherited || old(call.View()).statusFailed)
  {
    call.stateReverted := inherited || call.statusFailed;
  }

  function Marked(views: seq<CallRec>, i: nat): CallRec
    requires i < |views| && views[i].parentIndex <= |views|
  {
    var c := views[i];
    c.(stateReverted := (c.parentIndex > 0 && views[c.parentIndex - 1].stateReverted) || c.statusFailed)
  }

  method MarkFromParent(calls: seq<Call>, i: nat)
    requires Separate(calls) && i < |calls| && calls[i].parentIndex <= |calls|
    modifies calls[i]
    ensures calls[i].View().parentIndex == old(calls[i].parentIndex)
    ensures Views(calls) == old(Views(calls))[i := Marked(old(Views(calls)), i)]
  {
    hide Call.View;
    ghost var before := Views(calls);
    Fields(calls[i]);
    var inherited := false;
    if calls[i].parentIndex > 0 {
      Fields(calls[calls[i].parentIndex - 1]);
      inherited := calls[calls[i].parentIndex - 1].stateReverted;
    }
    Mark(calls[i], inherited);
    OneChanged(calls, before, i);
  }

  /** Calls marked so far, then the calls still to mark. */
  function Partly(start: seq<CallRec>, done: seq<CallRec>): (r: seq<CallRec>)
    requires |done| <= |start|
    ensures |r| == |start| && (|done| < |start| ==> r[|done|] == start[|done|])
  {
    done + start[|done|..]
  }

  lemma MarkedNext(start: seq<CallRec>, done: seq<CallRec>)
    requires |done| < |start| && start[|done|].parentIndex <= |start|
    ensures Marked(Partly(start, done), |done|) == NextMarked(start, done)
  {
  }

  lemma PartlyNext(start: seq<CallRec>, done: seq<CallRec>, c: CallRec)
    requires |done| < |start|
    ensures Partly(start, done)[|done| := c] == Partly(start, done + [c])
  {
  }

  lemma PropagateNext(start: seq<CallRec>, done: seq<CallRec>)
    requires |done| < |start| && start[|done|].parentIndex <= |start|
    ensures Propagate(start, done) == Propagate(start, done + [NextMarked(start, done)])
  {
    hide NextMarked;
  }

  /** Marks calls whose parent is marked or that failed; a parent index beyond the list panics. */
  method PopulateStateReverted(calls: seq<Call>) returns (r: Result<()>)
    requires Separate(calls)
    modifies calls
    ensures r.Ok? <==> Propagate(old(Views(calls)), []).Ok?
    ensures r.Ok? ==> Views(calls) == Propagate(old(Views(calls)), []).value
  {
    hide Call.View, Marked, NextMarked, Separate, Partly;
    ghost var start := Views(calls);
    ghost var done: seq<CallRec> := [];
    PartlyEnds(start, start);
    for i := 0 to |calls|
      invariant |done| == i && Views(calls) == Partly(start, done)
      invariant Propagate(start, done) == Propagate(start, [])
    {
      Fields(calls[i]);
      if calls[i].parentIndex > |calls| {
        return Panic;
      }
      ghost var next := NextMarked(start, done);
      MarkedNext(start, done);
      PropagateNext(start, done);
      PartlyNext(start, done, next);
      MarkFromParent(calls, i);
      done := done + [next];
    }
    PartlyEnds(start, done);
    return Ok(());
  }

  lemma PartlyEnds(start: seq<CallRec>, done: seq<CallRec>)
    requires |done| == |start|
    ensures Partly(start, []) == start && Partly(start, done) == done
  {
  }

  /** Removes the block index of the logs of reverted calls, except never-reverted ones. */
  method RemoveLogBlockIndexOnStateRevertedCalls(cfg: Config, calls: seq<Call>)
    requires Separate(calls)
    modifies calls
    ensures Views(calls) == ClearReverted(cfg, old(Views(calls)))
  {
    ghost var start := Views(calls);
    for i := 0 to |calls|
      invariant forall j :: 0 <= j < i ==> calls[j].View() == ClearCall(cfg)(start[j])
      invariant forall j :: i <= j < |calls| ==> calls[j].View() == start[j]
    {
      if calls[i].stateReverted {
        ClearLogs(cfg, calls[i]);
      }
    }
  }

  method ClearLogs(cfg: Config, call: Call)
    modifies call
    ensures call.View()
         == old(call.View()).(lists := old(call.ListsView()).(logs := MapSeq(ClearLog(cfg), old(call.logs))))
  {
    ghost var logs := call.logs;
    var i := 0;
    while i < |call.logs|
      invariant 0 <= i <= |call.logs| == |logs|
      invariant forall k :: 0 <= k < i ==> call.logs[k] == ClearLog(cfg)(logs[k])
      invariant forall k :: i <= k < |logs| ==> call.logs[k] == logs[k]
      invariant call.View() == old(call.View()).(lists := old(call.ListsView()).(logs := call.logs))
    {
      var log := call.logs[i];
      if log.body.Log? && !cfg.neverReverted(log.body.log) {
        call.logs := call.logs[i := log.(body := log.body.(blockIndex := 0))];
      }
      i := i + 1;
    }
    assert call.logs == MapSeq(ClearLog(cfg), logs);
  }

  // ---------------------------------------------------------------- receipt logs

  method KeepLogs(cfg: Config, logs: seq<Change>) returns (r: seq<Change>)
    ensures r == KeepNeverReverted(cfg, logs)
  {
    r := [];
    for i := 0 to |logs|
      invariant r == KeepNeverReverted(cfg, logs[..i])
    {
      assert logs[..i + 1][..i] == logs[..i];
      if NeverReverted(cfg, logs[i]) {
        r := r + [logs[i]];
      } else {
        assert r + [] == r;
      }
    }
    assert logs[..|logs|] == logs;
  }

  /** `out` is the receipt log with the ordinal and index of a call log of the same block index. */
  predicate FilledIn(c: Change, log: ReceiptLog, out: ReceiptLog) {
    c.body.Log? && c.body.blockIndex == log.blockIndex && out == log.(ordinal := c.ordinal, index := c.body.index)
  }

  /** Pairs the receipt's logs with the surviving call logs, sorted by ordinal; a mismatch panics. */
  method AssignOrdinalAndIndexToReceiptLogs(cfg: Config, calls: seq<Call>, logs: seq<ReceiptLog>)
      returns (r: Result<seq<ReceiptLog>>)
    ensures r == AssignReceipt(Sort(ChangeOrdinal, Surviving(cfg, Views(calls))), logs)
  {
    var callLogs: seq<Change> := [];
    for i := 0 to |calls|
      invariant callLogs == Surviving(cfg, Views(calls)[..i])
    {
      assert Views(calls)[..i + 1][..i] == Views(calls)[..i];
      if calls[i].stateReverted {
        var kept := KeepLogs(cfg, calls[i].logs);
        callLogs := callLogs + kept;
      } else {
        callLogs := callLogs + calls[i].logs;
      }
    }
    assert Views(calls)[..|calls|] == Views(calls);
    callLogs := Sort(ChangeOrdinal, callLogs);
    if |callLogs| != |logs| {
      return Panic;
    }
    var out: seq<ReceiptLog> := [];
    for i := 0 to |logs|
      invariant |out| == i && forall k :: 0 <= k < i ==> FilledIn(callLogs[k], logs[k], out[k])
    {
      if !callLogs[i].body.Log? || callLogs[i].body.blockIndex != logs[i].blockIndex {
        return Panic;
      }
      out := out + [logs[i].(ordinal := callLogs[i].ordinal, index := callLogs[i].body.index)];
    }
    assert out == AssignReceipt(callLogs, logs).value;
    return Ok(out);
  }

  // ---------------------------------------------------------------- authorizations

  method FindNonceChangeFor(changes: seq<Change>, used: set<nat>, a: Auth) returns (r: Option<nat>)
    ensures r == FindNonceChange(changes, used, a, 0)
  {
    for i := 0 to |changes|
      invariant FindNonceChange(changes, used, a, i) == FindNonceChange(changes, used, a, 0)
    {
      if Matches(changes[i], a) && i !in used {
        return Some(i);
      }
    }
    return None;
  }

  /** The authorization as it is kept. */
  function DecidedAuth(a: Auth, found: Option<nat>): Auth { if found.Some? then a else a.(discarded := true) }

  method Decide(a: Auth, changes: seq<Change>, used: set<nat>) returns (found: Option<nat>)
    ensures found == if |a.authority| == 0 then None else FindNonceChange(changes, used, a, 0)
  {
    if |a.authority| == 0 {
      return None;
    }
    found := FindNonceChangeFor(changes, used, a);
  }

  lemma DiscardFirst(auths: seq<Auth>, i: nat, changes: seq<Change>, used: set<nat>, found: Option<nat>, r: seq<Auth>)
    requires i < |auths| && found == if |auths[i].authority| == 0 then None
                                     else FindNonceChange(changes, used, auths[i], 0)
    ensures r + Discard(auths[i..], changes, used)
         == r + [DecidedAuth(auths[i], found)] + Discard(auths[i + 1..], changes, WithUsed(used, found))
  {
    hide FindNonceChange;
    assert auths[i..][0] == auths[i] && auths[i..][1..] == auths[i + 1..];
  }

  /** Marks authorizations that no nonce change of the root call accounts for. */
  method DiscardUncommittedSetCodeAuthorizations(auths: seq<Auth>, changes: seq<Change>) returns (r: seq<Auth>)
    ensures r == Discard(auths, changes, {})
  {
    hide FindNonceChange;
    r := [];
    var used: set<nat> := {};
    for i := 0 to |auths|
      invariant r + Discard(auths[i..], changes, used) == Discard(auths, changes, {})
    {
      hide Discard;
      var found := Decide(auths[i], changes, used);
      DiscardFirst(auths, i, changes, used, found, r);
      r := r + [DecidedAuth(auths[i], found)];
      used := WithUsed(used, found);
    }
  }

  // ---------------------------------------------------------------- ordinals on commit

  method ShiftChanges(s: seq<Change>, base: nat) returns (r: seq<Change>)
    ensures r == ChangesBy(AddBase(base), s)
  {
    r := [];
    for i := 0 to |s|
      invariant |r| == i && forall k :: 0 <= k < i ==> r[k] == s[k].(ordinal := s[k].ordinal + base)
    {
      r := r + [s[i].(ordinal := s[i].ordinal + base)];
    }
  }

  /** Adds `base` to every ordinal of a call. */
  method ReorderCallOrdinals(call: Call, base: nat)
    modifies call
    ensures call.View() == CallBy(AddBase(base))(old(call.View()))
  {
    var balance := ShiftChanges(call.balanceChanges, base);
    var nonce := ShiftChanges(call.nonceChanges, base);
    var code := ShiftChanges(call.codeChanges, base);
    var storage := ShiftChanges(call.storageChanges, base);
    var logs := ShiftChanges(call.logs, base);
    SetLists(call, Lists(balance, nonce, code, storage, logs));
    call.beginOrdinal, call.endOrdinal := call.beginOrdinal + base, call.endOrdinal + base;
  }

  method ReorderAllCalls(calls: seq<Call>, base: nat)
    requires Separate(calls)
    modifies calls
    ensures Views(calls) == CallsBy(AddBase(base), old(Views(calls)))
  {
    hide Call.View;
    ghost var start := Views(calls);
    for i := 0 to |calls|
      invariant forall j :: 0 <= j < i ==> calls[j].View() == CallBy(AddBase(base))(start[j])
      invariant forall j :: i <= j < |calls| ==> calls[j].View() == start[j]
    {
      ReorderCallOrdinals(calls[i], base);
    }
  }

  method ReorderReceipt(receipt: TxReceipt, base: nat) returns (r: TxReceipt)
    ensures r == TxReceipt(MapSeq(ReceiptLogBy(AddBase(base)), receipt.logs))
  {
    var out: seq<ReceiptLog> := [];
    for i := 0 to |receipt.logs|
      invariant |out| == i && forall k :: 0 <= k < i ==>
        out[k] == receipt.logs[k].(ordinal := receipt.logs[k].ordinal + base)
    {
      out := out + [receipt.logs[i].(ordinal := receipt.logs[i].ordinal + base)];
    }
    r := TxReceipt(out);
  }

  /** Adds `base` to every ordinal of a transaction, once, and returns its end ordinal. */
  method ReorderTransactionOrdinals(trx: Transaction, base: nat) returns (end: nat)
    requires Separate(trx.calls)
    modifies trx, trx.calls
    ensures trx.View() == TxBy(AddBase(base), old(trx.View())) && end == trx.endOrdinal && trx.calls == old(trx.calls)
  {
    hide Call.View, CallBy;
    trx.beginOrdinal := trx.beginOrdinal + base;
    ReorderAllCalls(trx.calls, base);
    if trx.receipt.Some? {
      var receipt := ReorderReceipt(trx.receipt.value, base);
      trx.receipt := Some(receipt);
    }
    trx.endOrdinal := trx.endOrdinal + base;
    end := trx.endOrdinal;
  }
}
