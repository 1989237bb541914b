/** The call-forest round trip: flatten a forest of calls into hook events, run the tracer, complete the
    transaction, and the forest is back. */
module RoundTrip {
  import opened Bytes
  import opened Wrappers
  import opened Model
  import opened Sorting
  import opened Completion
  import opened Machine
  import opened Streams
  import opened Forest
  import opened Outline
  import opened Nesting
  import opened Trees
  import opened Receipts
  import Balance

  function TxCtx(prague: bool): Ctx { Ctx(true, prague, false, false) }

  /** The trace of forest `f` as the body of a transaction whose begin ordinal is `base + 1`. */
  function BodyTrace(prague: bool, reader: bool, f: Items, base: nat): Built {
    Build(TxCtx(prague), reader, f, 0, Outside(NO_CHANGES), Env(base + 1, 0, 0, []))
  }

  lemma BodyRuns(prague: bool, st: Stream, f: Items, base: nat)
    requires WellFormed(f, false) && st.body == Flatten(f, 0)
    ensures var b := BodyTrace(prague, st.reader, f, base);
      b.h.Outside?
      && RunWork(TxCtx(prague), FirstWork(st, base), base + 1, st.body)
         == Ok((WorkAfter(FirstWork(st, base), b), b.env.ord))
  {
    hide RunWork, Build;
    FlattenRuns(TxCtx(prague), FirstWork(st, base), base + 1, f);
  }

  lemma BodyLaws(prague: bool, reader: bool, f: Items, base: nat)
    ensures BodyTrace(prague, reader, f, base).h.Outside?
    ensures BuiltLaws(BodyTrace(prague, reader, f, base), Outside(NO_CHANGES), Env(base + 1, 0, 0, []), 0)
    ensures Described(TxCtx(prague), reader, f, 0, Outside(NO_CHANGES), Env(base + 1, 0, 0, []),
                      BodyTrace(prague, reader, f, base))
  {
    hide Build, BuiltLaws, Described, ListsPlaced;
    NothingPlaced(0, base + 1, 0);
    BuildObeys(TxCtx(prague), reader, f, 0, Outside(NO_CHANGES), Env(base + 1, 0, 0, []), 0);
    BuildDescribed(TxCtx(prague), reader, f, 0, Outside(NO_CHANGES), Env(base + 1, 0, 0, []));
  }

  /** The completed transaction's calls are the traced ones, in preorder, each finalised. */
  ghost predicate CompletesTo(cfg: Config, b: Built, calls: seq<CallRec>) {
    && b.h.Outside? && IsCompletion(cfg, b.pre, b.h.d, calls)
    && forall i :: 0 <= i < |calls| ==> (calls[i].stateReverted <==> SomeFailed(b.pre, i))
  }

  /** The transaction when its body has run: its calls in closing order. */
  function ClosedTx(st: Stream, base: nat, b: Built): TxTrace {
    NewTx(st.tx, AuthsOf(st.signers), base + 1).(calls := b.post)
  }

  /** Tracing a forest is completing what its body traced. */
  lemma TraceIs(cfg: Config, prague: bool, st: Stream, f: Items, base: nat)
    requires WellFormed(f, false) && st.body == Flatten(f, 0)
    ensures var b := BodyTrace(prague, st.reader, f, base);
      b.h.Outside?
      && Trace(cfg, prague, st, base)
         == if IsDropped(cfg, st) then Ok(Traced(None, b.env.ord))
            else match Complete(cfg, ClosedTx(st, base, b), b.h.d, b.env.preimages, st.receipt, b.env.ord + 1)
              case Panic => Panic
              case Ok(done) => Ok(Traced(Some(done), b.env.ord + 1))
  {
    hide RunWork, BodyTrace, Complete, AuthsOf;
    var b := BodyTrace(prague, st.reader, f, base);
    BodyRuns(prague, st, f, base);
    assert [] + b.post == b.post;
  }

  /** As many calls are closed as there are, and settling them completes them. */
  lemma SettlesForest(cfg: Config, prague: bool, reader: bool, f: Items, base: nat)
    ensures var b := BodyTrace(prague, reader, f, base);
      && b.h.Outside? && |b.post| == |b.pre| == Size(f)
      && (Size(f) == 0 ==> CompletesTo(cfg, b, []))
      && (Size(f) > 0 ==> var r := SettledCalls(cfg, ArrangedCalls(b.post, b.h.d, b.env.preimages));
                          r.Ok? && CompletesTo(cfg, b, r.value))
  {
    hide BodyTrace, ArrangedCalls, SettledCalls, SomeFailed, IsCompletion;
    var b := BodyTrace(prague, reader, f, base);
    BodyLaws(prague, reader, f, base);
    SameBagSameLength(b.pre, b.post);
    NumberedInOrder(b.pre, base + 1, b.env.ord);
    if |b.post| > 0 {
      CompletionOrders(cfg, b.pre, b.post, b.h.d, b.env.preimages);
    } else {
      NothingCompletes(cfg, b.pre, b.h.d);
    }
  }

  lemma TraceCompletes(cfg: Config, prague: bool, st: Stream, f: Items, base: nat)
    requires WellFormed(f, false) && st.body == Flatten(f, 0)
    ensures var t := Trace(cfg, prague, st, base);
      t.Ok? && t.value.trx.Some? ==> CompletesTo(cfg, BodyTrace(prague, st.reader, f, base), t.value.trx.value.calls)
  {
    hide Trace, BodyTrace, PairLogs, ArrangedCalls, SettledCalls, CheckedAuths, ReceiptBefore, CompletesTo;
    TraceIs(cfg, prague, st, f, base);
    SettlesForest(cfg, prague, st.reader, f, base);
  }

  lemma NumberedInOrder(pre: seq<CallRec>, lo: nat, hi: nat)
    requires Laws(pre, 0, 0, lo, hi)
    ensures ParentsFirst(pre) && forall i :: 0 <= i < |pre| ==> pre[i].index == i + 1
  {
    hide CallLaw;
    forall i | 0 <= i < |pre| ensures pre[i].parentIndex <= i && pre[i].index == i + 1 {
      LawAt(pre, lo, hi, i);
    }
  }

  lemma NothingCompletes(cfg: Config, pre: seq<CallRec>, leftover: Lists)
    requires |pre| == 0
    ensures IsCompletion(cfg, pre, leftover, [])
  {
  }

  // ---------------------------------------------------------------- what the completed calls look like

  /** Call `c` is call `o` of the outline: same numbering, depth, parent, arguments and result, holding exactly
      the changes of the outline (`extra` after them), its logs' block indexes removed when it is reverted.
      Ordinals, log indexes and preimages are left open. */
  ghost predicate Renders(cfg: Config, o: CallRec, extra: Lists, c: CallRec) {
    BlankCall(c).(keccak := map[]) == Finalised(cfg, o, extra, map[], c.stateReverted)
  }

  lemma ClearBlanks(cfg: Config, c: CallRec)
    ensures BlankCall(ClearCall(cfg)(c)) == ClearCall(cfg)(BlankCall(c))
  {
    if c.stateReverted {
      var logs := c.lists.logs;
      assert MapSeq(Blank(), MapSeq(ClearLog(cfg), logs)) == MapSeq(ClearLog(cfg), MapSeq(Blank(), logs));
    }
  }

  lemma ConcatBlanks(a: Lists, b: Lists)
    ensures BlankLists(Concat(a, b)) == Concat(BlankLists(a), BlankLists(b))
  {
    assert BlankChanges(a.balance + b.balance) == BlankChanges(a.balance) + BlankChanges(b.balance);
    assert BlankChanges(a.nonce + b.nonce) == BlankChanges(a.nonce) + BlankChanges(b.nonce);
    assert BlankChanges(a.code + b.code) == BlankChanges(a.code) + BlankChanges(b.code);
    assert BlankChanges(a.storage + b.storage) == BlankChanges(a.storage) + BlankChanges(b.storage);
    assert BlankChanges(a.logs + b.logs) == BlankChanges(a.logs) + BlankChanges(b.logs);
  }

  lemma FinalisedRenders(cfg: Config, c: CallRec, extra: Lists, keccak: map<Word, Bytes>, reverted: bool)
    ensures Renders(cfg, BlankCall(c), BlankLists(extra), Finalised(cfg, c, extra, keccak, reverted))
  {
    hide BlankLists, ClearLog;
    var joined := c.(lists := Concat(c.lists, extra), keccak := keccak, stateReverted := reverted);
    ClearBlanks(cfg, joined);
    ConcatBlanks(c.lists, extra);
    ClearKeepsRest(cfg, BlankCall(joined));
  }

  lemma ClearKeepsRest(cfg: Config, c: CallRec)
    ensures ClearCall(cfg)(c).(keccak := map[]) == ClearCall(cfg)(c.(keccak := map[]))
    ensures ClearCall(cfg)(c).stateReverted == c.stateReverted
  {
  }

  /** Ordinals of a call's lists increase strictly, and each lies inside the call's interval, or before a root
      call's begin, or after `end` where `end` is past every call of the transaction. */
  ghost predicate ListInOrder(s: seq<Change>, c: CallRec, first: bool, cs: seq<CallRec>) {
    && StrictlyOrdered(ChangeOrdinal, s)
    && forall k :: 0 <= k < |s| ==>
      || c.beginOrdinal < s[k].ordinal < c.endOrdinal
      || (c.depth == 0 && s[k].ordinal < c.beginOrdinal)
      || (first && forall j :: 0 <= j < |cs| ==> cs[j].endOrdinal < s[k].ordinal)
  }

  ghost predicate ChangesInOrder(c: CallRec, first: bool, cs: seq<CallRec>) {
    && ListInOrder(c.lists.balance, c, first, cs) && ListInOrder(c.lists.nonce, c, first, cs)
    && ListInOrder(c.lists.code, c, first, cs) && ListInOrder(c.lists.storage, c, first, cs)
    && ListInOrder(c.lists.logs, c, first, cs)
  }

  /** Changes of one kind, the call's own and then the leftover. */
  lemma JoinInOrder(own: seq<Change>, extra: seq<Change>, c: CallRec, first: bool, cs: seq<CallRec>, hi: nat)
    requires c.beginOrdinal < c.endOrdinal && Placed(own, FloorOf(c), c.endOrdinal - 1, c.beginOrdinal)
    requires |extra| > 0 ==> first && c in cs
    requires forall j :: 0 <= j < |cs| ==> |extra| > 0 ==> Placed(extra, cs[j].endOrdinal, hi, 0)
    ensures ListInOrder(own + extra, c, first, cs)
  {
    var s := own + extra;
    forall k | 0 <= k < |s|
      ensures c.beginOrdinal < s[k].ordinal < c.endOrdinal || (c.depth == 0 && s[k].ordinal < c.beginOrdinal)
           || (first && forall j :: 0 <= j < |cs| ==> cs[j].endOrdinal < s[k].ordinal)
    {
    }
    forall i, j | 0 <= i < j < |s| ensures s[i].ordinal < s[j].ordinal {
      if i < |own| <= j {
        var p :| 0 <= p < |cs| && cs[p] == c;
        assert Placed(extra, cs[p].endOrdinal, hi, 0);
      }
    }
  }

  lemma ListInOrderKept(s: seq<Change>, s': seq<Change>, c: CallRec, c': CallRec, first: bool, cs: seq<CallRec>,
                        cs': seq<CallRec>)
    requires ListInOrder(s, c, first, cs) && |s| == |s'| && |cs| == |cs'|
    requires forall k :: 0 <= k < |s| ==> s'[k].ordinal == s[k].ordinal
    requires c'.beginOrdinal == c.beginOrdinal && c'.endOrdinal == c.endOrdinal && c'.depth == c.depth
    requires forall j :: 0 <= j < |cs| ==> cs'[j].endOrdinal == cs[j].endOrdinal
    ensures ListInOrder(s', c', first, cs')
  {
    forall k | 0 <= k < |s'|
      ensures c'.beginOrdinal < s'[k].ordinal < c'.endOrdinal || (c'.depth == 0 && s'[k].ordinal < c'.beginOrdinal)
           || (first && forall j :: 0 <= j < |cs'| ==> cs'[j].endOrdinal < s'[k].ordinal)
    {
      assert s'[k].ordinal == s[k].ordinal;
    }
  }

  // ---------------------------------------------------------------- the theorem

  /** `calls` is the forest `f`: its outline in preorder, numbered from one, intervals nested exactly along
      ancestry, reverted exactly under failures, every change in order and in place. */
  ghost predicate IsForest(cfg: Config, prague: bool, reader: bool, f: Items, calls: seq<CallRec>) {
    var outline := Calls(TxCtx(prague), reader, f, 0, 0, 1, NO_CHANGES);
    && |calls| == |outline| == Size(f)
    && (forall i :: 0 <= i < |calls| ==> calls[i].index == i + 1)
    && (forall i :: 0 <= i < |calls| ==> Renders(cfg, outline[i], ExtraAt(Leftover(f, NO_CHANGES), i), calls[i]))
    && (forall i, j :: 0 <= i < j < |calls| ==> WellNested(calls, i, j))
    && (forall i :: 0 <= i < |calls| ==> (calls[i].stateReverted <==> SomeFailed(calls, i)))
    && forall i :: 0 <= i < |calls| ==> ChangesInOrder(calls[i], i == 0, calls)
  }

  /** Completion keeps numbering, links, intervals and failures. */
  ghost predicate SameShape(a: seq<CallRec>, b: seq<CallRec>) {
    |a| == |b| && forall i :: 0 <= i < |a| ==>
      SameFrame(a[i], b[i]) && a[i].endOrdinal == b[i].endOrdinal && a[i].statusFailed == b[i].statusFailed
  }

  lemma CompletedShape(cfg: Config, pre: seq<CallRec>, leftover: Lists, calls: seq<CallRec>)
    requires IsCompletion(cfg, pre, leftover, calls)
    ensures SameShape(pre, calls)
  {
    hide Concat;
  }

  lemma NestedKept(pre: seq<CallRec>, calls: seq<CallRec>, lo: nat, hi: nat)
    requires Laws(pre, 0, 0, lo, hi) && SameShape(pre, calls)
    ensures forall i, j :: 0 <= i < j < |calls| ==> WellNested(calls, i, j)
  {
    hide Laws;
    forall i, j | 0 <= i < j < |calls| ensures WellNested(calls, i, j) {
      IntervalsNest(pre, lo, hi, i, j);
      SameAncestors(pre, calls, i, j);
    }
  }

  lemma RendersAll(cfg: Config, prague: bool, reader: bool, f: Items, base: nat, calls: seq<CallRec>)
    requires CompletesTo(cfg, BodyTrace(prague, reader, f, base), calls)
    ensures var outline := Calls(TxCtx(prague), reader, f, 0, 0, 1, NO_CHANGES);
      |calls| == |outline| == Size(f)
      && forall i :: 0 <= i < |calls| ==> Renders(cfg, outline[i], ExtraAt(Leftover(f, NO_CHANGES), i), calls[i])
  {
    hide BodyTrace, Calls, Leftover, BuiltLaws, Finalised, Renders, BlankLists, BlankCall, SomeFailed;
    BodyLaws(prague, reader, f, base);
    NothingBlank();
    var b := BodyTrace(prague, reader, f, base);
    forall i | 0 <= i < |calls|
      ensures Renders(cfg, BlankCall(b.pre[i]), ExtraAt(Leftover(f, NO_CHANGES), i), calls[i])
    {
      FinalisedRenders(cfg, b.pre[i], ExtraAt(b.h.d, i), calls[i].keccak, calls[i].stateReverted);
    }
  }

  lemma OrderedAll(cfg: Config, b: Built, calls: seq<CallRec>, env: Env)
    requires BuiltLaws(b, Outside(NO_CHANGES), env, 0) && env.index == 0 && CompletesTo(cfg, b, calls)
    ensures forall i :: 0 <= i < |calls| ==> ChangesInOrder(calls[i], i == 0, calls)
  {
    hide SiblingLaw, BeginLaw, SomeFailed, ChangesInOrder, Finalised, ListsPlaced;
    forall i | 0 <= i < |calls| ensures ChangesInOrder(calls[i], i == 0, calls) {
      assert CallLaw(b.pre, 0, 0, env.ord, b.env.ord, i);
      CompletedShape(cfg, b.pre, b.h.d, calls);
      OrderedCall(cfg, b.pre, b.h.d, i, b.env.ord, calls);
    }
  }

  lemma OrderedCall(cfg: Config, pre: seq<CallRec>, leftover: Lists, i: nat, hi: nat, calls: seq<CallRec>)
    requires i < |pre| && CallPlaced(pre[i]) && SameShape(pre, calls)
    requires forall j :: 0 <= j < |pre| ==> ListsPlaced(leftover, pre[j].endOrdinal, hi, 0)
    requires calls[i] == Finalised(cfg, pre[i], ExtraAt(leftover, i), calls[i].keccak, calls[i].stateReverted)
    ensures ChangesInOrder(calls[i], i == 0, calls)
  {
    hide ListInOrder, Placed;
    var c, extra, first := pre[i], ExtraAt(leftover, i), i == 0;
    assert i > 0 ==> extra == NO_CHANGES;
    JoinInOrder(c.lists.balance, extra.balance, c, first, pre, hi);
    JoinInOrder(c.lists.nonce, extra.nonce, c, first, pre, hi);
    JoinInOrder(c.lists.code, extra.code, c, first, pre, hi);
    JoinInOrder(c.lists.storage, extra.storage, c, first, pre, hi);
    JoinInOrder(c.lists.logs, extra.logs, c, first, pre, hi);
    var joined := Concat(c.lists, extra);
    ListInOrderKept(joined.balance, calls[i].lists.balance, c, calls[i], first, pre, calls);
    ListInOrderKept(joined.nonce, calls[i].lists.nonce, c, calls[i], first, pre, calls);
    ListInOrderKept(joined.code, calls[i].lists.code, c, calls[i], first, pre, calls);
    ListInOrderKept(joined.storage, calls[i].lists.storage, c, calls[i], first, pre, calls);
    ListInOrderKept(joined.logs, calls[i].lists.logs, c, calls[i], first, pre, calls);
  }

  lemma CompletedIsForest(cfg: Config, prague: bool, reader: bool, f: Items, base: nat, calls: seq<CallRec>)
    requires CompletesTo(cfg, BodyTrace(prague, reader, f, base), calls)
    ensures IsForest(cfg, prague, reader, f, calls)
  {
    hide BodyTrace, Calls, Leftover, Renders, WellNested, ChangesInOrder, SomeFailed, IsCompletion, Laws, LeftoverLaw;
    var b := BodyTrace(prague, reader, f, base);
    BodyLaws(prague, reader, f, base);
    CompletedShape(cfg, b.pre, b.h.d, calls);
    NumberedInOrder(b.pre, base + 1, b.env.ord);
    NestedKept(b.pre, calls, base + 1, b.env.ord);
    RendersAll(cfg, prague, reader, f, base, calls);
    OrderedAll(cfg, b, calls, Env(base + 1, 0, 0, []));
    forall i | 0 <= i < |calls| ensures SomeFailed(calls, i) <==> SomeFailed(b.pre, i) {
      SameFailures(calls, b.pre, i);
    }
  }

  /** The call-forest round trip. For every well-formed forest and every transaction whose body is its
      flattening, if tracing completes with a transaction, the transaction's calls are that forest. */
  lemma ForestRoundTrip(cfg: Config, prague: bool, st: Stream, f: Items, base: nat)
    requires WellFormed(f, false) && st.body == Flatten(f, 0)
    ensures var t := Trace(cfg, prague, st, base);
      t.Ok? && t.value.trx.Some? ==> IsForest(cfg, prague, st.reader, f, t.value.trx.value.calls)
  {
    hide Trace, BodyTrace, CompletesTo, IsForest;
    TraceCompletes(cfg, prague, st, f, base);
    var t := Trace(cfg, prague, st, base);
    if t.Ok? && t.value.trx.Some? {
      CompletedIsForest(cfg, prague, st.reader, f, base, t.value.trx.value.calls);
    }
  }

  /** The calls of forest `f` as completion settles them, before the receipt is looked at. */
  ghost function SettledForest(cfg: Config, prague: bool, reader: bool, f: Items, base: nat): (calls: seq<CallRec>)
    ensures IsForest(cfg, prague, reader, f, calls)
  {
    SettlesForest(cfg, prague, reader, f, base);
    var b := BodyTrace(prague, reader, f, base);
    var calls := if Size(f) == 0 then [] else SettledCalls(cfg, ArrangedCalls(b.post, b.h.d, b.env.preimages)).value;
    CompletedIsForest(cfg, prague, reader, f, base, calls);
    calls
  }

  /** When tracing a forest completes: always when the transaction is dropped; without a root call, when no log or
      storage change waits for one; otherwise, when the receipt has the surviving logs' block indexes, in
      emission order. Settling the calls never panics. */
  lemma ForestCompletes(cfg: Config, prague: bool, st: Stream, f: Items, base: nat)
    requires WellFormed(f, false) && st.body == Flatten(f, 0)
    ensures Trace(cfg, prague, st, base).Ok? <==>
      IsDropped(cfg, st)
      || if Size(f) == 0 then !HasCallOnlyChanges(Leftover(f, NO_CHANGES))
         else LogsMatch(Emitted(cfg, SettledForest(cfg, prague, st.reader, f, base)), GivenLogs(st.receipt))
  {
    hide Trace, BodyTrace, PairLogs, ArrangedCalls, SettledCalls, CheckedAuths, ReceiptBefore, CompletesTo, IsForest;
    hide LogsMatch, Emitted;
    var b := BodyTrace(prague, st.reader, f, base);
    TraceIs(cfg, prague, st, f, base);
    SettlesForest(cfg, prague, st.reader, f, base);
    if |b.post| > 0 {
      PairingPanics(cfg, ClosedTx(st, base, b), SettledForest(cfg, prague, st.reader, f, base), st.receipt);
    } else {
      BodyLaws(prague, st.reader, f, base);
      NothingBlank();
    }
  }

  /** The same for every balanced body: it is the flattening of some forest, and its calls are that forest. */
  lemma BalancedRoundTrip(cfg: Config, prague: bool, st: Stream, base: nat)
    requires Balance.Balanced(st.body, 0, false)
    ensures exists f :: WellFormed(f, false) && Flatten(f, 0) == st.body
                        && var t := Trace(cfg, prague, st, base);
                           t.Ok? && t.value.trx.Some? ==> IsForest(cfg, prague, st.reader, f, t.value.trx.value.calls)
  {
    hide Trace, IsForest;
    Balance.BalancedIsForest(st.body);
    var f :| WellFormed(f, false) && Flatten(f, 0) == st.body;
    ForestRoundTrip(cfg, prague, st, f, base);
  }
}
