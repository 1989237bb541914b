/** Preimages left over by a reset (tracer.go:1015-1042). A reset of an isolated tracer keeps the preimages recorded
    so far, unless completing a transaction with a call has used them up (tracer.go:1157-1167). What is left over
    shows at most in the preimages of the transaction traced next, and some transaction shows it. */
module LeftPreimages {
  import opened Bytes
  import opened Wrappers
  import opened Model
  import opened Sorting
  import opened Completion
  import opened Machine
  import opened Ranges
  import opened Steps
  import opened World
  import opened Streams
  import opened Forest
  import opened Outline
  import opened RoundTrip
  import Trees
  import KeccakFilter

  // ---------------------------------------------------------------- completion and preimages

  function Bare(): CallRec -> CallRec { (c: CallRec) => c.(keccak := map[]) }

  function Bared(calls: seq<CallRec>): seq<CallRec> { MapSeq(Bare(), calls) }

  function BareTx(t: TxTrace): TxTrace { t.(calls := Bared(t.calls)) }

  function BareResult(r: Result<TxTrace>): Result<TxTrace> {
    match r case Panic => Panic case Ok(t) => Ok(BareTx(t))
  }

  lemma NextMarkedBare(calls: seq<CallRec>, done: seq<CallRec>)
    requires |done| < |calls| && calls[|done|].parentIndex <= |calls|
    ensures NextMarked(Bared(calls), Bared(done)) == Bare()(NextMarked(calls, done))
  {
    var all, all' := done + calls[|done|..], Bared(done) + Bared(calls)[|done|..];
    assert |all'| == |all| && forall i :: 0 <= i < |all| ==> all'[i].stateReverted == all[i].stateReverted;
  }

  lemma {:induction false} PropagateBare(calls: seq<CallRec>, done: seq<CallRec>)
    requires |done| <= |calls|
    ensures Propagate(Bared(calls), Bared(done))
         == match Propagate(calls, done) case Panic => Panic case Ok(r) => Ok(Bared(r))
    decreases |calls| - |done|
  {
    hide NextMarked;
    if |done| < |calls| && calls[|done|].parentIndex <= |calls| {
      NextMarkedBare(calls, done);
      assert Bared(done + [NextMarked(calls, done)]) == Bared(done) + [Bare()(NextMarked(calls, done))];
      PropagateBare(calls, done + [NextMarked(calls, done)]);
    }
  }

  lemma SettledBare(cfg: Config, calls: seq<CallRec>)
    ensures SettledCalls(cfg, Bared(calls))
         == match SettledCalls(cfg, calls) case Panic => Panic case Ok(r) => Ok(Bared(r))
  {
    hide Propagate;
    PropagateBare(calls, []);
    assert Bared([]) == [];
    var r := Propagate(calls, []);
    if r.Ok? {
      assert ClearReverted(cfg, Bared(r.value)) == Bared(ClearReverted(cfg, r.value));
    }
  }

  lemma {:induction false} SurvivingBare(cfg: Config, calls: seq<CallRec>)
    ensures Surviving(cfg, Bared(calls)) == Surviving(cfg, calls)
    decreases |calls|
  {
    if |calls| > 0 {
      assert Bared(calls)[..|calls| - 1] == Bared(calls[..|calls| - 1]);
      SurvivingBare(cfg, calls[..|calls| - 1]);
    }
  }

  lemma ArrangedBare(calls: seq<CallRec>, leftover: Lists, recorded: seq<Recorded>, recorded': seq<Recorded>)
    requires |calls| > 0
    ensures Bared(ArrangedCalls(calls, leftover, recorded)) == Bared(ArrangedCalls(calls, leftover, recorded'))
  {
    hide Attach, Concat;
    SortOrders(CallIndex, calls);
    var sorted := SortCalls(calls);
    var rooted := sorted[0 := sorted[0].(lists := Concat(sorted[0].lists, leftover))];
    AttachKeeps(rooted, recorded);
    AttachKeeps(rooted, recorded');
  }

  lemma PairBare(cfg: Config, calls: seq<CallRec>, calls': seq<CallRec>, receipt: Option<TxReceipt>)
    requires Bared(calls) == Bared(calls')
    ensures PairLogs(cfg, calls, receipt) == PairLogs(cfg, calls', receipt)
  {
    SurvivingBare(cfg, calls);
    SurvivingBare(cfg, calls');
  }

  /** Which preimages were recorded neither decides whether a transaction completes nor shows anywhere in it but
      in the preimages of its calls. */
  lemma CompleteBare(cfg: Config, trx: TxTrace, leftover: Lists, recorded: seq<Recorded>, recorded': seq<Recorded>,
                     receipt: Option<Receipt>, end: nat)
    ensures BareResult(Complete(cfg, trx, leftover, recorded, receipt, end))
         == BareResult(Complete(cfg, trx, leftover, recorded', receipt, end))
  {
    hide ArrangedCalls, SettledCalls, PairLogs, CheckedAuths, ReceiptBefore;
    if |trx.calls| > 0 {
      ArrangedBare(trx.calls, leftover, recorded, recorded');
      var a, a' := ArrangedCalls(trx.calls, leftover, recorded), ArrangedCalls(trx.calls, leftover, recorded');
      SettledBare(cfg, a);
      SettledBare(cfg, a');
      var r, r' := SettledCalls(cfg, a), SettledCalls(cfg, a');
      if r.Ok? {
        PairBare(cfg, r.value, r'.value, ReceiptBefore(trx, receipt));
        assert Bared(r.value)[0] == Bare()(r.value[0]) && Bared(r'.value)[0] == Bare()(r'.value[0]);
      }
    }
  }

  lemma SettledKeeps(cfg: Config, calls: seq<CallRec>)
    ensures var r := SettledCalls(cfg, calls);
      r.Ok? ==> forall i :: 0 <= i < |calls| ==>
        r.value[i].index == calls[i].index && r.value[i].keccak == calls[i].keccak
                                                 && r.value[i].lists.storage == calls[i].lists.storage
  {
    PropagateMarks(calls, []);
  }

  // ---------------------------------------------------------------- which call shows a recorded preimage

  /** A call numbered `k` is given a preimage of `h`. */
  ghost predicate Explains(calls: seq<CallRec>, k: nat, h: Word) {
    exists i :: 0 <= i < |calls| && calls[i].index == k && h in calls[i].keccak
  }

  ghost predicate HasIndex(calls: seq<CallRec>, k: nat) {
    exists i :: 0 <= i < |calls| && calls[i].index == k
  }

  lemma {:induction false} LastIndexed(calls: seq<CallRec>, k: nat) returns (i: nat)
    requires HasIndex(calls, k)
    ensures i < |calls| && calls[i].index == k && LastWithIndex(calls, i)
    decreases |calls|
  {
    var n := |calls| - 1;
    if calls[n].index == k {
      i := n;
    } else {
      var front := calls[..n];
      var j :| 0 <= j < |calls| && calls[j].index == k;
      assert front[j].index == k;
      i := LastIndexed(front, k);
    }
  }

  lemma {:induction false} OfCallHas(recorded: seq<Recorded>, r: Recorded)
    requires r in recorded
    ensures r in OfCall(recorded, r.callIndex)
    decreases |recorded|
  {
    if recorded[0] != r {
      OfCallHas(recorded[1..], r);
    }
  }

  /** A recorded hash that is a written slot is kept. */
  lemma WrittenIsKept(keys: seq<Bytes>, recorded: seq<Recorded>, r: Recorded)
    requires r in recorded && r.hash in keys
    ensures r.hash in KeccakFilter.Kept(keys, recorded)
  {
    var h := r.hash;
    assert h in KeccakFilter.Hashes(recorded);
    assert KeccakFilter.IsBase(KeccakFilter.Hashes(recorded), h, h);
    assert KeccakFilter.BaseOfAny(keys, recorded, h);
    assert KeccakFilter.PathTo(keys, recorded, [h], KeccakFilter.MAX_DEPTH, h);
    hide KeccakFilter.PathTo, KeccakFilter.Hashes;
    assert KeccakFilter.Within(keys, recorded, KeccakFilter.MAX_DEPTH, h);
  }

  lemma AttachShows(calls: seq<CallRec>, recorded: seq<Recorded>, r: Recorded)
    requires r in recorded && r.hash in AllStorageKeys(calls) && HasIndex(calls, r.callIndex)
    ensures Explains(Attach(calls, recorded), r.callIndex, r.hash)
  {
    var i := LastIndexed(calls, r.callIndex);
    WrittenIsKept(AllStorageKeys(calls), recorded, r);
    OfCallHas(recorded, r);
    hide KeccakFilter.Kept;
    assert r.hash in KeccakFilter.Hashes(OfCall(recorded, r.callIndex));
    assert r.hash in Attach(calls, recorded)[i].keccak;
  }

  lemma {:induction false} SameStorageKeys(a: seq<CallRec>, b: seq<CallRec>)
    requires |a| == |b| && forall i :: 0 <= i < |a| ==> a[i].lists.storage == b[i].lists.storage
    ensures AllStorageKeys(a) == AllStorageKeys(b)
    decreases |a|
  {
    if |a| > 0 {
      SameStorageKeys(a[..|a| - 1], b[..|b| - 1]);
    }
  }

  /** Whatever a completed transaction's calls write, a hash recorded for one of its calls that equals a slot it
      writes shows in that call; `t` is any completion, with whatever preimages. */
  lemma CompletionShows(cfg: Config, trx: TxTrace, leftover: Lists, recorded: seq<Recorded>, receipt: Option<Receipt>,
                        end: nat, r: Recorded)
    requires |trx.calls| > 0 && Complete(cfg, trx, leftover, recorded, receipt, end).Ok? && r in recorded
    requires var t := Complete(cfg, trx, leftover, recorded, receipt, end).value;
      r.hash in AllStorageKeys(t.calls) && HasIndex(t.calls, r.callIndex)
    ensures Explains(Complete(cfg, trx, leftover, recorded, receipt, end).value.calls, r.callIndex, r.hash)
  {
    hide Attach, SettledCalls, PairLogs, CheckedAuths, ReceiptBefore, Concat, AllStorageKeys;
    var arranged := ArrangedCalls(trx.calls, leftover, recorded);
    SettledKeeps(cfg, arranged);
    var t := Complete(cfg, trx, leftover, recorded, receipt, end).value;
    SortOrders(CallIndex, trx.calls);
    var sorted := SortCalls(trx.calls);
    var rooted := sorted[0 := sorted[0].(lists := Concat(sorted[0].lists, leftover))];
    AttachKeeps(rooted, recorded);
    SameStorageKeys(t.calls, rooted);
    var i :| 0 <= i < |t.calls| && t.calls[i].index == r.callIndex;
    assert rooted[i].index == r.callIndex;
    AttachShows(rooted, recorded, r);
    var j :| 0 <= j < |arranged| && arranged[j].index == r.callIndex && r.hash in arranged[j].keccak;
    assert t.calls[j].index == r.callIndex && r.hash in t.calls[j].keccak;
  }

  // ---------------------------------------------------------------- a stream traced with preimages left over

  function WithLeft(left: seq<Recorded>, w: Work): Work { w.(preimages := left + w.preimages) }

  lemma LeftLeaf(left: seq<Recorded>, ctx: Ctx, w: Work, ord: nat, e: TxEvent)
    requires IsLeaf(e)
    ensures StepLeaf(ctx, WithLeft(left, w), ord, e)
         == match StepLeaf(ctx, w, ord, e) case Panic => Panic case Ok(r) => Ok((WithLeft(left, r.0), r.1))
  {
    hide LeafOnCall, LeafOutside, Records;
    var top := Top(w.stack);
    if e.Keccak? && top.Some? {
      var r := KeccakFilter.Recorded(top.value.index, e.hash, e.preimage);
      assert left + (w.preimages + [r]) == (left + w.preimages) + [r];
    }
  }

  lemma LeftStep(left: seq<Recorded>, ctx: Ctx, w: Work, ord: nat, e: TxEvent)
    ensures StepWork(ctx, WithLeft(left, w), ord, e)
         == match StepWork(ctx, w, ord, e) case Panic => Panic case Ok(r) => Ok((WithLeft(left, r.0), r.1))
  {
    hide StepLeaf, DelegationOf, NewCall, Numbered, Closed;
    if IsLeaf(e) {
      LeftLeaf(left, ctx, w, ord, e);
    }
  }

  /** Preimages are only appended to while tracing, never looked at. */
  lemma {:induction false} LeftRun(left: seq<Recorded>, ctx: Ctx, w: Work, ord: nat, es: seq<TxEvent>)
    ensures RunWork(ctx, WithLeft(left, w), ord, es)
         == match RunWork(ctx, w, ord, es) case Panic => Panic case Ok(r) => Ok((WithLeft(left, r.0), r.1))
    decreases |es|
  {
    hide StepWork, WithLeft;
    if |es| > 0 {
      LeftStep(left, ctx, w, ord, es[0]);
      var r := StepWork(ctx, w, ord, es[0]);
      if r.Ok? {
        LeftRun(left, ctx, r.value.0, r.value.1, es[1..]);
      }
    }
  }

  /** An isolated tracer of `s` after a reset that left `left` over. */
  function ResetWith(s: State, left: seq<Recorded>): State { Spawned(s).(work := FRESH.(preimages := left)) }

  /** What a commit takes from an isolated tracer. */
  ghost predicate CommitsAlike(r: Result<State>, r': Result<State>) {
    && r.Ok? == r'.Ok?
    && (r.Ok? ==> r.value.dropped == r'.value.dropped && r.value.ended == r'.value.ended
                  && (r.value.ended ==> r.value.work.trx == r'.value.work.trx))
  }

  /** The same up to preimages of the calls. */
  ghost predicate AlikeButPreimages(r: Result<State>, r': Result<State>) {
    && r.Ok? == r'.Ok?
    && (r.Ok? ==> r.value.dropped == r'.value.dropped && r.value.ended == r'.value.ended
                  && (r.value.ended ==> r.value.work.trx.Some? && r'.value.work.trx.Some?
                                        && BareTx(r.value.work.trx.value) == BareTx(r'.value.work.trx.value)))
  }

  /** How a stream ends on an isolated tracer with preimages left over. */
  ghost predicate EndsWith(cfg: Config, st: Stream, left: seq<Recorded>, w: Work, ord: nat, r: Result<State>) {
    w.trx.Some? &&
    if IsDropped(cfg, st) then r.Ok? && r.value.dropped && !r.value.ended
    else
      var done := Complete(cfg, w.trx.value, w.deferred, left + w.preimages, st.receipt, ord + 1);
      && r.Ok? == done.Ok?
      && (r.Ok? ==> !r.value.dropped && r.value.ended && r.value.work.trx == Some(done.value))
  }

  lemma StreamEnds(cfg: Config, s: State, left: seq<Recorded>, st: Stream)
    requires s.block.Some?
    ensures var r, plain := Run(cfg, ResetWith(s, left), EventsOf(st)),
                            RunWork(Ctx(true, s.prague, false, false), FirstWork(st, 0), 1, st.body);
      if plain.Panic? then r.Panic? else EndsWith(cfg, st, left, plain.value.0, plain.value.1, r)
  {
    hide RunWork, Complete;
    var i, ctx, w := ResetWith(s, left), Ctx(true, s.prague, false, false), FirstWork(st, 0);
    StreamRun(cfg, i, st);
    assert w.(preimages := left) == WithLeft(left, w) by { assert left + [] == left; }
    LeftRun(left, ctx, w, 1, st.body);
    var plain := RunWork(ctx, w, 1, st.body);
    if plain.Ok? {
      assert WorkIn(w, 1);
      RunIn(ctx, w, 1, st.body);
    }
  }

  /** Whatever was left over, a transaction traced after the reset succeeds or panics as on a fresh tracer, and
      differs from the one traced there at most in the preimages of its calls. */
  lemma DiffersInPreimages(cfg: Config, s: State, left: seq<Recorded>, st: Stream)
    requires s.block.Some?
    ensures AlikeButPreimages(Run(cfg, ResetWith(s, left), EventsOf(st)), Run(cfg, Spawned(s), EventsOf(st)))
  {
    hide Run, RunWork, Complete;
    StreamEnds(cfg, s, left, st);
    StreamEnds(cfg, s, [], st);
    assert ResetWith(s, []) == Spawned(s);
    var plain := RunWork(Ctx(true, s.prague, false, false), FirstWork(st, 0), 1, st.body);
    if plain.Ok? && !IsDropped(cfg, st) {
      var w := plain.value.0;
      CompleteBare(cfg, w.trx.value, w.deferred, left + w.preimages, [] + w.preimages, st.receipt, plain.value.1 + 1);
    }
  }

  /** The calls of a transaction waiting for its commit. */
  ghost predicate Waits(r: Result<State>) { r.Ok? && r.value.ended && r.value.work.trx.Some? }

  function WaitingCalls(r: Result<State>): seq<CallRec>
    requires Waits(r)
  {
    r.value.work.trx.value.calls
  }

  /** A preimage left over shows in every transaction that has the call it was recorded for and writes its hash as
      a slot, so that transaction differs from the one traced on a fresh tracer unless it shows it there too. */
  lemma LeftoverShows(cfg: Config, s: State, left: seq<Recorded>, st: Stream, r: Recorded)
    requires s.block.Some? && r in left && Waits(Run(cfg, Spawned(s), EventsOf(st)))
    requires var calls := WaitingCalls(Run(cfg, Spawned(s), EventsOf(st)));
      r.hash in AllStorageKeys(calls) && HasIndex(calls, r.callIndex)
    ensures var retried := Run(cfg, ResetWith(s, left), EventsOf(st));
      Waits(retried) && Explains(WaitingCalls(retried), r.callIndex, r.hash)
  {
    hide Run, RunWork, Complete, AllStorageKeys;
    DiffersInPreimages(cfg, s, left, st);
    StreamEnds(cfg, s, left, st);
    StreamEnds(cfg, s, [], st);
    assert ResetWith(s, []) == Spawned(s);
    var calls := WaitingCalls(Run(cfg, Spawned(s), EventsOf(st)));
    var calls' := WaitingCalls(Run(cfg, ResetWith(s, left), EventsOf(st)));
    assert Bared(calls) == Bared(calls');
    forall i | 0 <= i < |calls| ensures calls[i].index == calls'[i].index && calls[i].lists == calls'[i].lists {
      assert Bared(calls)[i] == Bared(calls')[i];
    }
    SameStorageKeys(calls, calls');
    var i :| 0 <= i < |calls| && calls[i].index == r.callIndex;
    assert calls'[i].index == r.callIndex;
    var plain := RunWork(Ctx(true, s.prague, false, false), FirstWork(st, 0), 1, st.body).value;
    var w := plain.0;
    CompletionHasCalls(cfg, w.trx.value, w.deferred, left + w.preimages, st.receipt, plain.1 + 1);
    CompletionShows(cfg, w.trx.value, w.deferred, left + w.preimages, st.receipt, plain.1 + 1, r);
  }

  lemma CompletionHasCalls(cfg: Config, trx: TxTrace, leftover: Lists, recorded: seq<Recorded>,
                           receipt: Option<Receipt>, end: nat)
    ensures var r := Complete(cfg, trx, leftover, recorded, receipt, end); r.Ok? ==> |r.value.calls| == |trx.calls|
  {
    hide ArrangedCalls, SettledCalls, PairLogs, CheckedAuths, ReceiptBefore;
  }

  // ---------------------------------------------------------------- a transaction that shows a given preimage

  const CALL_FRAME := Frame(0xf1, [], [], [], 0, 0, None)
  const CALL_EXIT := Exit([], 0, [], false)

  predicate WritesSlot(write: StateChange, h: Word) { write.Storage? && write.key == h && !IsNoOp(write) }

  /** `n` nested calls, the innermost of which makes the change. */
  function Chain(n: nat, write: StateChange): Items {
    if n == 0 then Leaf(Changed(write), Done) else Sub(CALL_FRAME, Chain(n - 1, write), CALL_EXIT, Done)
  }

  function Witness(k: nat, write: StateChange): Stream {
    Stream(TxInfo([], [], [], 0), [], false, Flatten(Chain(k, write), 0), Some(Receipt(0, 0, 1, [])))
  }

  lemma {:induction false} ChainIsPlain(n: nat, write: StateChange, depth: nat, inside: bool)
    ensures WellFormed(Chain(n, write), inside) && Size(Chain(n, write)) == n
    ensures forall e :: e in Flatten(Chain(n, write), depth) ==> !e.Keccak?
    ensures n > 0 ==> Outline.Leftover(Chain(n, write), NO_CHANGES) == NO_CHANGES
  {
    if n > 0 {
      ChainIsPlain(n - 1, write, depth + 1, true);
    }
  }

  ghost predicate Logless(calls: seq<CallRec>) {
    forall i :: 0 <= i < |calls| ==> calls[i].lists.logs == []
  }

  function NewChainCall(ctx: Ctx, depth: nat, parent: nat, next: nat): CallRec {
    Numbered(NewCall(CALL_FRAME, DelegationOf(ctx, false, CALL_FRAME), 0, NO_CHANGES), next, depth, parent)
  }

  lemma {:induction false} ChainCalls(ctx: Ctx, n: nat, write: StateChange, h: Word, depth: nat, parent: nat, next: nat)
    requires WritesSlot(write, h) && (n == 0 ==> depth > 0)
    ensures var o := Calls(ctx, false, Chain(n, write), depth, parent, next, NO_CHANGES);
      |o| == n && Logless(o) && (n > 0 ==> o[n - 1].lists.storage == [Change(0, write)])
    decreases n
  {
    hide DelegationOf;
    if n > 0 {
      ChainCalls(ctx, n - 1, write, h, depth + 1, next, next + 1);
      ChainOwn(n - 1, write, h, NewChainCall(ctx, depth, parent, next));
    }
  }

  lemma ChainOwn(n: nat, write: StateChange, h: Word, start: CallRec)
    requires WritesSlot(write, h) && start.lists == NO_CHANGES
    ensures Own(Chain(n, write), start).lists
         == if n == 0 then NO_CHANGES.(storage := [Change(0, write)]) else NO_CHANGES
  {
    if n == 0 {
      var r := RecordOf(Changed(write), 1, 0);
      assert AddTo(NO_CHANGES, r) == NO_CHANGES.(storage := [] + [r]);
      assert BlankLists(NO_CHANGES.(storage := [r])) == NO_CHANGES.(storage := [Change(0, write)]);
    }
  }

  lemma RenderedLists(cfg: Config, o: CallRec, c: CallRec)
    requires Renders(cfg, o, NO_CHANGES, c) && o.lists.logs == []
    ensures c.lists.logs == [] && BlankChanges(c.lists.storage) == o.lists.storage
  {
    ConcatEmpty(o.lists);
    assert BlankChanges(c.lists.logs) == [];
  }

  lemma {:induction false} NoneSurvive(cfg: Config, calls: seq<CallRec>)
    requires Logless(calls)
    ensures Surviving(cfg, calls) == []
    decreases |calls|
  {
    if |calls| > 0 {
      NoneSurvive(cfg, calls[..|calls| - 1]);
    }
  }

  lemma {:induction false} KeyOfCall(calls: seq<CallRec>, i: nat, write: StateChange, h: Word)
    requires i < |calls| && WritesSlot(write, h) && BlankChanges(calls[i].lists.storage) == [Change(0, write)]
    ensures h in AllStorageKeys(calls)
    decreases |calls|
  {
    var n := |calls| - 1;
    if i < n {
      KeyOfCall(calls[..n], i, write, h);
    } else {
      var storage := calls[i].lists.storage;
      assert |storage| == 1 && BlankChanges(storage)[0].body == write;
      assert storage[..0] == [] && StorageKeys(storage) == [] + [h];
    }
  }

  /** What a forest of chained calls completes to. */
  lemma ChainForest(cfg: Config, prague: bool, k: nat, write: StateChange, h: Word, calls: seq<CallRec>)
    requires k > 0 && WritesSlot(write, h) && IsForest(cfg, prague, false, Chain(k, write), calls)
    ensures |calls| == k && calls[k - 1].index == k && Logless(calls) && h in AllStorageKeys(calls)
  {
    hide Renders, AllStorageKeys, Trees.WellNested, Trees.SomeFailed, ChangesInOrder, Calls, Outline.Leftover;
    ChainIsPlain(k, write, 0, false);
    ChainCalls(TxCtx(prague), k, write, h, 0, 0, 1);
    var outline := Calls(TxCtx(prague), false, Chain(k, write), 0, 0, 1, NO_CHANGES);
    forall i | 0 <= i < k
      ensures calls[i].lists.logs == [] && BlankChanges(calls[i].lists.storage) == outline[i].lists.storage
    {
      RenderedLists(cfg, outline[i], calls[i]);
    }
    KeyOfCall(calls, k - 1, write, h);
  }

  lemma WitnessTraced(cfg: Config, prague: bool, k: nat, write: StateChange, h: Word)
    requires k > 0 && WritesSlot(write, h)
    ensures var t := Trace(cfg, prague, Witness(k, write), 0);
      t.Ok? && t.value.trx.Some? && |t.value.trx.value.calls| == k && t.value.trx.value.calls[k - 1].index == k
      && h in AllStorageKeys(t.value.trx.value.calls)
  {
    hide Trace, IsForest, SettledForest, Chain, AllStorageKeys, Surviving;
    var st, f := Witness(k, write), Chain(k, write);
    ChainIsPlain(k, write, 0, false);
    var settled := SettledForest(cfg, prague, false, f, 0);
    ChainForest(cfg, prague, k, write, h, settled);
    NoneSurvive(cfg, settled);
    ForestCompletes(cfg, prague, st, f, 0);
    TraceIn(cfg, prague, st, 0);
    ForestRoundTrip(cfg, prague, st, f, 0);
    ChainForest(cfg, prague, k, write, h, Trace(cfg, prague, st, 0).value.trx.value.calls);
  }

  // ---------------------------------------------------------------- without a hash there are no preimages

  ghost predicate NoneShown(calls: seq<CallRec>) {
    forall i :: 0 <= i < |calls| ==> calls[i].keccak == map[]
  }

  ghost predicate Unhashed(w: Work) {
    w.preimages == [] && NoneShown(w.stack) && (w.trx.Some? ==> NoneShown(w.trx.value.calls))
  }

  lemma UnhashedStep(ctx: Ctx, w: Work, ord: nat, e: TxEvent)
    requires Unhashed(w) && !e.Keccak? && StepWork(ctx, w, ord, e).Ok?
    ensures Unhashed(StepWork(ctx, w, ord, e).value.0)
  {
    hide DelegationOf, Records, RecordOf, AddTo;
  }

  lemma {:induction false} UnhashedRun(ctx: Ctx, w: Work, ord: nat, es: seq<TxEvent>)
    requires Unhashed(w) && (forall e :: e in es ==> !e.Keccak?) && RunWork(ctx, w, ord, es).Ok?
    ensures Unhashed(RunWork(ctx, w, ord, es).value.0)
    decreases |es|
  {
    hide StepWork, Unhashed;
    if |es| > 0 {
      assert es[0] in es;
      UnhashedStep(ctx, w, ord, es[0]);
      var r := StepWork(ctx, w, ord, es[0]).value;
      UnhashedRun(ctx, r.0, r.1, es[1..]);
    }
  }

  lemma NothingAttached(calls: seq<CallRec>)
    requires NoneShown(calls)
    ensures NoneShown(Attach(calls, []))
  {
    hide KeccakFilter.Kept;
  }

  lemma UnhashedCompletes(cfg: Config, trx: TxTrace, leftover: Lists, receipt: Option<Receipt>, end: nat)
    requires NoneShown(trx.calls) && Complete(cfg, trx, leftover, [], receipt, end).Ok?
    ensures NoneShown(Complete(cfg, trx, leftover, [], receipt, end).value.calls)
  {
    hide Attach, SettledCalls, PairLogs, CheckedAuths, ReceiptBefore, Concat;
    if |trx.calls| > 0 {
      SortedElements(CallIndex, trx.calls);
      var sorted := SortCalls(trx.calls);
      NothingAttached(sorted[0 := sorted[0].(lists := Concat(sorted[0].lists, leftover))]);
      SettledKeeps(cfg, ArrangedCalls(trx.calls, leftover, []));
    }
  }

  /** On a fresh tracer no call of the witness is given a preimage. */
  lemma WitnessShowsNothing(cfg: Config, prague: bool, k: nat, write: StateChange)
    ensures var t := Trace(cfg, prague, Witness(k, write), 0);
      t.Ok? && t.value.trx.Some? ==> NoneShown(t.value.trx.value.calls)
  {
    hide RunWork, Complete, Chain;
    var st, ctx := Witness(k, write), Ctx(true, prague, false, false);
    ChainIsPlain(k, write, 0, false);
    var r := RunWork(ctx, FirstWork(st, 0), 1, st.body);
    if r.Ok? {
      UnhashedRun(ctx, FirstWork(st, 0), 1, st.body);
      if r.value.0.trx.Some? && Complete(cfg, r.value.0.trx.value, r.value.0.deferred, [], st.receipt,
                                         r.value.1 + 1).Ok? {
        UnhashedCompletes(cfg, r.value.0.trx.value, r.value.0.deferred, st.receipt, r.value.1 + 1);
      }
    }
  }

  /** So whatever preimage is left over, recorded for a numbered call, some transaction is not traced as on a
      fresh tracer. */
  lemma SomeStreamDiffers(cfg: Config, s: State, left: seq<Recorded>, r: Recorded) returns (st: Stream)
    requires s.block.Some? && r in left && r.callIndex > 0
    ensures !CommitsAlike(Run(cfg, ResetWith(s, left), EventsOf(st)), Run(cfg, Spawned(s), EventsOf(st)))
  {
    hide Run, Trace, Witness, AllStorageKeys;
    var zero: Word := seq(WORD_SIZE, _ => 0);
    var one: Word := seq(WORD_SIZE, _ => 1);
    assert zero[0] != one[0];
    var write: StateChange := Storage([], r.hash, zero, one);
    var k := r.callIndex;
    st := Witness(k, write);
    WitnessTraced(cfg, s.prague, k, write, r.hash);
    WitnessShowsNothing(cfg, s.prague, k, write);
    IsolatedRun(cfg, s, st);
    var once, retried := Run(cfg, Spawned(s), EventsOf(st)), Run(cfg, ResetWith(s, left), EventsOf(st));
    assert WaitingCalls(once)[k - 1].index == k;
    LeftoverShows(cfg, s, left, st, r);
    assert WaitingCalls(once) != WaitingCalls(retried);
  }

  // ---------------------------------------------------------------- what an attempt leaves, told from its events

  /** What the events so far tell of an isolated tracer: whether its transaction has started and closed a call,
      whether the next exit belongs to a SELFDESTRUCT, and whether a recorded preimage is still there. */
  datatype Mark = Mark(started: bool, closed: bool, suicided: bool, recorded: bool)

  const UNTOUCHED := Mark(false, false, false, false)

  function NextMark(cfg: Config, m: Mark, e: Event): Mark {
    match e
    case TxStart(_, _, _) => m.(started := true)
    case TxReset => Mark(false, false, false, m.recorded)
    case TxEnd(receipt) =>
      if m.closed && !(receipt.None? && cfg.dropWithoutReceipt) then m.(recorded := false) else m
    case Tx(Enter(_, frame)) => if frame.typ == SELFDESTRUCT then m.(suicided := true) else m
    case Tx(Leave(_)) => if m.suicided then m.(suicided := false) else m.(closed := true)
    case Tx(Keccak(_, preimage)) => m.(recorded := m.recorded || |preimage| <= MAX_PREIMAGE)
    case _ => m
  }

  /** Events of transactions, from their start on, and resets. */
  predicate AttemptEvent(m: Mark, e: Event) {
    e.TxStart? || e.TxReset? || (m.started && (e.Tx? || e.TxEnd?))
  }

  predicate IsAttempt(cfg: Config, m: Mark, es: seq<Event>)
    decreases |es|
  {
    |es| > 0 ==> AttemptEvent(m, es[0]) && IsAttempt(cfg, NextMark(cfg, m, es[0]), es[1..])
  }

  function MarkAfter(cfg: Config, m: Mark, es: seq<Event>): Mark
    decreases |es|
  {
    if |es| == 0 then m else MarkAfter(cfg, NextMark(cfg, m, es[0]), es[1..])
  }

  /** A preimage short enough to be recorded is, and no transaction with a call is completed after it. */
  predicate LeavesPreimage(cfg: Config, es: seq<Event>) { MarkAfter(cfg, UNTOUCHED, es).recorded }

  function Reset(i: State): State { i.(work := FRESH, ended := false, dropped := false, ordinal := 0) }

  ghost predicate AllNumbered(w: Work) {
    && (forall j :: 0 <= j < |w.stack| ==> w.stack[j].index > 0)
    && forall j :: 0 <= j < |w.preimages| ==> w.preimages[j].callIndex > 0
  }

  function MarkOf(w: Work): Mark {
    Mark(w.trx.Some?, w.trx.Some? && |w.trx.value.calls| > 0, w.suicided, |w.preimages| > 0)
  }

  ghost predicate Marked(m: Mark, i: State) { i.isolated && AllNumbered(i.work) && m == MarkOf(i.work) }

  lemma MarkLeaf(cfg: Config, ctx: Ctx, w: Work, ord: nat, e: TxEvent)
    requires AllNumbered(w) && w.trx.Some? && IsLeaf(e) && StepLeaf(ctx, w, ord, e).Ok?
    ensures var r := StepLeaf(ctx, w, ord, e).value.0;
      AllNumbered(r) && r.trx.Some? && MarkOf(r) == NextMark(cfg, MarkOf(w), Tx(e))
  {
    hide LeafOutside, NextOrdinal, NextLogIndex, IsNoOp;
    if |w.stack| > 0 {
      SameNumber(w.stack[|w.stack| - 1], e, Env(ord, 0, w.logIndex, []));
      hide LeafOnCall;
    }
  }

  lemma MarkCall(cfg: Config, ctx: Ctx, w: Work, ord: nat, e: TxEvent)
    requires AllNumbered(w) && w.trx.Some? && !IsLeaf(e) && StepWork(ctx, w, ord, e).Ok?
    ensures var r := StepWork(ctx, w, ord, e).value.0;
      AllNumbered(r) && r.trx.Some? && MarkOf(r) == NextMark(cfg, MarkOf(w), Tx(e))
  {
    hide DelegationOf, StepLeaf, Closed;
  }

  lemma MarkWork(cfg: Config, ctx: Ctx, w: Work, ord: nat, e: TxEvent)
    requires AllNumbered(w) && w.trx.Some? && StepWork(ctx, w, ord, e).Ok?
    ensures var r := StepWork(ctx, w, ord, e).value.0;
      AllNumbered(r) && r.trx.Some? && MarkOf(r) == NextMark(cfg, MarkOf(w), Tx(e))
  {
    hide AllNumbered, StepLeaf, NextMark, MarkOf;
    if IsLeaf(e) {
      MarkLeaf(cfg, ctx, w, ord, e);
    } else {
      MarkCall(cfg, ctx, w, ord, e);
    }
  }

  lemma MarkTx(cfg: Config, m: Mark, i: State, e: TxEvent)
    requires Marked(m, i) && m.started && StepTx(i, e).Ok?
    ensures var r := StepTx(i, e).value;
      r == i.(work := r.work, ordinal := r.ordinal) && Marked(NextMark(cfg, m, Tx(e)), r)
  {
    hide StepWork, AllNumbered, NextMark, IsNoOp;
    MarkWork(cfg, CtxOf(i), i.work, i.ordinal, e);
  }

  lemma MarkStart(cfg: Config, m: Mark, i: State, info: TxInfo, signers: seq<(Bytes, nat)>, reader: bool)
    requires Marked(m, i) && StepTxStart(i, info, signers, reader).Ok?
    ensures var r := StepTxStart(i, info, signers, reader).value;
      r == i.(work := r.work, ordinal := r.ordinal) && Marked(NextMark(cfg, m, TxStart(info, signers, reader)), r)
  {
    hide AuthsOf;
  }

  lemma MarkEnd(cfg: Config, m: Mark, i: State, receipt: Option<Receipt>)
    requires Marked(m, i) && StepTxEnd(cfg, i, receipt).Ok?
    ensures var r := StepTxEnd(cfg, i, receipt).value;
      && r == i.(work := r.work, ordinal := r.ordinal, ended := r.ended, dropped := r.dropped)
      && Marked(NextMark(cfg, m, TxEnd(receipt)), r)
  {
    hide StepTxEnd, Complete, AllNumbered;
    TxEndCases(cfg, i, receipt);
    if !(receipt.None? && cfg.dropWithoutReceipt) {
      var w := i.work;
      CompletionHasCalls(cfg, w.trx.value, w.deferred, w.preimages, receipt, i.ordinal + 1);
      var done := Complete(cfg, w.trx.value, w.deferred, w.preimages, receipt, i.ordinal + 1).value;
      var ended := EndedWork(w, done);
      StillNumbered(w, ended.(preimages := []));
      StillNumbered(w, ended);
    }
  }

  lemma StillNumbered(w: Work, w': Work)
    requires AllNumbered(w) && w'.stack == w.stack && (w'.preimages == w.preimages || w'.preimages == [])
    ensures AllNumbered(w')
  {
  }

  /** An event of an attempt changes nothing that a reset does not restore, except that it may record a preimage, and
      the marks follow the tracer. */
  lemma MarkStep(cfg: Config, m: Mark, i: State, e: Event)
    requires Marked(m, i) && AttemptEvent(m, e) && Step(cfg, i, e).Ok?
    ensures var r := Step(cfg, i, e).value;
      r.block == i.block && Reset(r) == Reset(i) && Marked(NextMark(cfg, m, e), r)
  {
    hide StepTx, StepTxStart, StepTxEnd;
    match e
    case Tx(e) => MarkTx(cfg, m, i, e);
    case TxStart(info, signers, reader) => MarkStart(cfg, m, i, info, signers, reader);
    case TxEnd(receipt) => MarkEnd(cfg, m, i, receipt);
    case TxReset => {}
  }

  lemma {:induction false} MarkRun(cfg: Config, m: Mark, i: State, es: seq<Event>)
    requires Marked(m, i) && IsAttempt(cfg, m, es) && Run(cfg, i, es).Ok?
    ensures var r := Run(cfg, i, es).value;
      r.block == i.block && Reset(r) == Reset(i) && Marked(MarkAfter(cfg, m, es), r)
    decreases |es|
  {
    hide Step, Marked, NextMark, AttemptEvent;
    if |es| > 0 {
      MarkStep(cfg, m, i, es[0]);
      MarkRun(cfg, NextMark(cfg, m, es[0]), Step(cfg, i, es[0]).value, es[1..]);
    }
  }

  lemma {:induction false} MarkConcat(cfg: Config, m: Mark, a: seq<Event>, b: seq<Event>)
    ensures MarkAfter(cfg, m, a + b) == MarkAfter(cfg, MarkAfter(cfg, m, a), b)
    decreases |a|
  {
    if |a| == 0 {
      assert a + b == b;
    } else {
      assert (a + b)[1..] == a[1..] + b;
      MarkConcat(cfg, NextMark(cfg, m, a[0]), a[1..], b);
    }
  }

  /** The usual retry: an attempt whose transaction had a call and was completed leaves nothing, whatever it hashed. */
  lemma EndedLeavesNothing(cfg: Config, es: seq<Event>, receipt: Option<Receipt>)
    requires MarkAfter(cfg, UNTOUCHED, es).closed && !(receipt.None? && cfg.dropWithoutReceipt)
    ensures !LeavesPreimage(cfg, es + [TxEnd(receipt)])
  {
    MarkConcat(cfg, UNTOUCHED, es, [TxEnd(receipt)]);
    assert [TxEnd(receipt)][1..] == [];
  }

  /** Nothing but a transaction distinguishes `i` from a tracer just spawned. */
  predicate TransactionsOnly(i: State) {
    i.isolated && !i.genesis && i.flash.None? && i.snapshot.None? && i.output == []
  }

  /** A reset makes a tracer as new exactly when no preimage is left over and no system call was under way. */
  lemma ResetIsFresh(i: State)
    requires TransactionsOnly(i)
    ensures StepTxReset(i) == Ok(Spawned(i)) <==> i.work.preimages == [] && !i.inSystemCall && i.saved.None?
  {
  }

  /** After any attempt and its reset, every transaction is traced as on a fresh tracer if and only if the attempt
      leaves no preimage; then the tracer is as new. */
  lemma ResetIsInvisible(cfg: Config, s: State, es: seq<Event>)
    requires s.block.Some? && IsAttempt(cfg, UNTOUCHED, es) && Run(cfg, Spawned(s), es).Ok?
    ensures var r := Step(cfg, Run(cfg, Spawned(s), es).value, TxReset);
      && r.Ok? && (r.value == Spawned(s) <==> !LeavesPreimage(cfg, es))
      && (!LeavesPreimage(cfg, es)
          <==> forall st: Stream :: CommitsAlike(Run(cfg, r.value, EventsOf(st)), Run(cfg, Spawned(s), EventsOf(st))))
  {
    hide Run, EventsOf, CommitsAlike;
    assert Marked(UNTOUCHED, Spawned(s));
    MarkRun(cfg, UNTOUCHED, Spawned(s), es);
    var i := Run(cfg, Spawned(s), es).value;
    var left := i.work.preimages;
    assert Reset(Spawned(s)) == Spawned(s);
    assert Step(cfg, i, TxReset) == Ok(ResetWith(s, left)) by { ResetLeaves(cfg, s, i); }
    if LeavesPreimage(cfg, es) {
      assert left[0].callIndex > 0;
      var st := SomeStreamDiffers(cfg, s, left, left[0]);
    } else {
      assert ResetWith(s, []) == Spawned(s);
      forall st: Stream ensures CommitsAlike(Run(cfg, Spawned(s), EventsOf(st)), Run(cfg, Spawned(s), EventsOf(st))) {
        AlikeItself(Run(cfg, Spawned(s), EventsOf(st)));
      }
    }
  }

  lemma AlikeItself(r: Result<State>)
    ensures CommitsAlike(r, r)
  {
  }

  lemma ResetLeaves(cfg: Config, s: State, i: State)
    requires Reset(i) == Spawned(s)
    ensures Step(cfg, i, TxReset) == Ok(ResetWith(s, i.work.preimages))
  {
    assert i == Reset(i).(work := i.work, ended := i.ended, dropped := i.dropped, ordinal := i.ordinal);
  }
}
