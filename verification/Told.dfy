/** The completed calls of a transaction say what the hook calls told of them. */
module Told {
  import opened Bytes
  import opened Wrappers
  import opened Model
  import opened Sorting
  import opened Completion
  import opened Machine
  import opened Forest
  import opened Outline
  import opened Streams
  import opened RoundTrip
  import opened Reading
  import Trees

  // ---------------------------------------------------------------- what is directly in a call

  function Unset(): Body -> Change { (b: Body) => Change(0, b) }

  function Blanks(bodies: seq<Body>): seq<Change> { MapSeq(Unset(), bodies) }

  /** The lists `l` followed by what `es` report. */
  function Reporting(l: Lists, es: seq<TxEvent>, inCall: bool): Lists {
    Lists(l.balance + Blanks(BalancesIn(es)), l.nonce + Blanks(NoncesIn(es)), l.code + Blanks(CodesIn(es, inCall)),
          l.storage + Blanks(StoragesIn(es)), l.logs + Blanks(LogsIn(es)))
  }

  function AfterOwn(c: CallRec, es: seq<TxEvent>): CallRec {
    c.(lists := Reporting(c.lists, es, true), executedCode := Executes(es), suicide := Destructs(es))
  }

  lemma BlanksJoin(a: seq<Body>, b: seq<Body>)
    ensures Blanks(a + b) == Blanks(a) + Blanks(b) && Blanks([]) == []
  {
  }

  /** One more event reports at most one change, of one kind. */
  function Noted(l: Lists, b: Option<Body>): Lists { if b.None? then l else AddTo(l, Change(0, b.value)) }

  function OneMore(front: seq<TxEvent>, e: TxEvent, inCall: bool): Option<Body> {
    match e
    case Changed(Balance(a, o, n, reason)) => if reason != 0 && o != n then Some(Balance(a, o, n, reason)) else None
    case Changed(Nonce(a, o, n)) => if o != n then Some(Nonce(a, o, n)) else None
    case Changed(Storage(a, k, o, n)) => if o != n then Some(Storage(a, k, o, n)) else None
    case Changed(Code(a, oh, nh, oc, nc)) =>
      if oh != nh && !(inCall && Destructs(front) && |oc| > 0 && |nc| == 0) then Some(Code(a, oh, nh, oc, nc)) else None
    case Emit(log, blockIndex) => Some(Log(log, 0, blockIndex))
    case _ => None
  }

  lemma ReportingLast(l: Lists, front: seq<TxEvent>, e: TxEvent, inCall: bool)
    ensures Reporting(l, front + [e], inCall) == Noted(Reporting(l, front, inCall), OneMore(front, e, inCall))
  {
    hide Destructs;
    var es := front + [e];
    assert es[..|es| - 1] == front;
    BlanksJoin([], []);
    var one := OneMore(front, e, inCall);
    if one.Some? {
      BlanksJoin(BalancesIn(front), [one.value]);
      BlanksJoin(NoncesIn(front), [one.value]);
      BlanksJoin(CodesIn(front, inCall), [one.value]);
      BlanksJoin(StoragesIn(front), [one.value]);
      BlanksJoin(LogsIn(front), [one.value]);
      assert Blanks([one.value]) == [Change(0, one.value)];
    }
    hide Blanks;
  }

  lemma MarksLast(front: seq<TxEvent>, e: TxEvent)
    ensures Destructs(front + [e]) <==> Destructs(front) || e == Opcode(0xff, false)
    ensures Executes(front + [e]) <==> Executes(front) || e.Opcode? || e.OpcodeFault?
  {
    var es := front + [e];
    assert es[|front|] == e && forall i :: 0 <= i < |front| ==> es[i] == front[i];
    if Destructs(front) {
      var i :| 0 <= i < |front| && front[i] == Opcode(0xff, false);
      assert es[i] == Opcode(0xff, false);
    }
    if Executes(front) {
      var i :| 0 <= i < |front| && (front[i].Opcode? || front[i].OpcodeFault?);
      assert es[i].Opcode? || es[i].OpcodeFault?;
    }
  }

  /** A call record whose ordinals and log indexes are left open. */
  predicate IsBlank(c: CallRec) { BlankCall(c) == c }

  lemma BlankNoted(l: Lists, r: Change, b: Body)
    requires BlankLists(l) == l && r.body == b && BlankBody(b) == (if b.Log? then Log(b.log, 0, b.blockIndex) else b)
    ensures BlankLists(AddTo(l, r)) == AddTo(l, Change(0, BlankBody(b)))
  {
    BlankAddTo(l, r);
  }

  lemma ReportingBlank(l: Lists, es: seq<TxEvent>, inCall: bool)
    requires BlankLists(l) == l
    ensures BlankLists(Reporting(l, es, inCall)) == Reporting(l, es, inCall)
  {
    Unindexed(es, inCall);
    assert BlankChanges(l.balance) == l.balance && BlankChanges(l.nonce) == l.nonce && BlankChanges(l.code) == l.code;
    assert BlankChanges(l.storage) == l.storage && BlankChanges(l.logs) == l.logs;
    BlanksBlank(l.balance, BalancesIn(es));
    BlanksBlank(l.nonce, NoncesIn(es));
    BlanksBlank(l.code, CodesIn(es, inCall));
    BlanksBlank(l.storage, StoragesIn(es));
    BlanksBlank(l.logs, LogsIn(es));
  }

  predicate NoIndexes(bodies: seq<Body>) { forall i :: 0 <= i < |bodies| ==> BlankBody(bodies[i]) == bodies[i] }

  lemma BlanksBlank(s: seq<Change>, bodies: seq<Body>)
    requires BlankChanges(s) == s && NoIndexes(bodies)
    ensures BlankChanges(s + Blanks(bodies)) == s + Blanks(bodies)
  {
    forall i | 0 <= i < |s| ensures Blank()(s[i]) == s[i] {
      assert BlankChanges(s)[i] == s[i];
    }
  }

  lemma {:induction false} Unindexed(es: seq<TxEvent>, inCall: bool)
    ensures NoIndexes(BalancesIn(es)) && NoIndexes(NoncesIn(es)) && NoIndexes(CodesIn(es, inCall))
    ensures NoIndexes(StoragesIn(es)) && NoIndexes(LogsIn(es))
    decreases |es|
  {
    hide Destructs;
    if |es| > 0 {
      Unindexed(es[..|es| - 1], inCall);
    }
  }

  lemma ChangeReports(c: CallRec, front: seq<TxEvent>, e: TxEvent)
    requires IsBlank(c) && (e.Changed? || e.Emit?) && c.suicide == Destructs(front)
    ensures LeafIn(c, e) == c.(lists := Noted(c.lists, OneMore(front, e, true)))
  {
    hide Destructs, BlankLists, AddTo;
    assert BlankLists(c.lists) == c.lists;
    var one := OneMore(front, e, true);
    if one.Some? {
      BlankNoted(c.lists, RecordOf(e, 1, 0), RecordOf(e, 1, 0).body);
    }
  }

  /** The effect of one event on a call. */
  lemma LeafReports(c: CallRec, front: seq<TxEvent>, e: TxEvent)
    requires IsBlank(c) && IsLeaf(e) && c.suicide == Destructs(front)
    ensures LeafIn(c, e)
         == c.(lists := Noted(c.lists, OneMore(front, e, true)),
               executedCode := c.executedCode || e.Opcode? || e.OpcodeFault?,
               suicide := c.suicide || e == Opcode(0xff, false))
  {
    hide Destructs;
    if e.Changed? || e.Emit? {
      hide LeafIn;
      ChangeReports(c, front, e);
    }
  }

  lemma {:induction false} LeavesJoin(c: CallRec, a: seq<TxEvent>, b: seq<TxEvent>)
    ensures LeavesIn(c, a + b) == LeavesIn(LeavesIn(c, a), b)
    decreases |a|
  {
    if |a| == 0 {
      assert a + b == b;
    } else {
      assert (a + b)[1..] == a[1..] + b;
      LeavesJoin(LeafIn(c, a[0]), a[1..], b);
    }
  }

  lemma LeavesOne(c: CallRec, e: TxEvent)
    ensures LeavesIn(c, [e]) == LeafIn(c, e)
  {
    assert [e][1..] == [];
  }

  ghost predicate AllLeaves(es: seq<TxEvent>) { forall i :: 0 <= i < |es| ==> IsLeaf(es[i]) }

  /** What is directly in a call is what its record holds. */
  lemma {:induction false} LeavesReport(c: CallRec, es: seq<TxEvent>)
    requires IsBlank(c) && AllLeaves(es) && !c.suicide && !c.executedCode
    ensures LeavesIn(c, es) == AfterOwn(c, es) && IsBlank(AfterOwn(c, es))
    decreases |es|
  {
    hide LeafIn, BlankLists, Reporting;
    if |es| == 0 {
      NothingReported(c.lists, true);
    } else {
      var n := |es| - 1;
      var front, e := es[..n], es[n];
      assert es == front + [e];
      LeavesReport(c, front);
      LeavesJoin(c, front, [e]);
      LeavesOne(LeavesIn(c, front), e);
      LeafReports(AfterOwn(c, front), front, e);
      ReportingLast(c.lists, front, e, true);
      MarksLast(front, e);
    }
    ReportingBlank(c.lists, es, true);
  }

  lemma NothingReported(l: Lists, inCall: bool)
    ensures Reporting(l, [], inCall) == l
  {
  }

  /** Outside a call. */
  lemma {:induction false} WaitReports(es: seq<TxEvent>)
    requires AllLeaves(es)
    ensures WaitAll(NO_CHANGES, es) == Reporting(NO_CHANGES, es, false)
    decreases |es|
  {
    hide Wait, BlankLists, Reporting;
    if |es| == 0 {
      NothingReported(NO_CHANGES, false);
    } else {
      var n := |es| - 1;
      var front, e := es[..n], es[n];
      assert es == front + [e];
      WaitReports(front);
      WaitJoin(NO_CHANGES, front, [e]);
      NoChangesBlank();
      ReportingBlank(NO_CHANGES, front, false);
      WaitOne(Reporting(NO_CHANGES, front, false), front, e);
      ReportingLast(NO_CHANGES, front, e, false);
    }
  }

  lemma NoChangesBlank()
    ensures BlankLists(NO_CHANGES) == NO_CHANGES
  {
  }

  lemma {:induction false} WaitJoin(d: Lists, a: seq<TxEvent>, b: seq<TxEvent>)
    ensures WaitAll(d, a + b) == WaitAll(WaitAll(d, a), b)
    decreases |a|
  {
    hide Wait;
    if |a| == 0 {
      assert a + b == b;
    } else {
      assert (a + b)[1..] == a[1..] + b;
      WaitJoin(Wait(d, a[0]), a[1..], b);
    }
  }

  lemma WaitOne(d: Lists, front: seq<TxEvent>, e: TxEvent)
    requires BlankLists(d) == d && IsLeaf(e)
    ensures WaitAll(d, [e]) == Noted(d, OneMore(front, e, false))
  {
    hide Destructs, BlankLists, AddTo;
    assert [e][1..] == [];
    assert WaitAll(Wait(d, e), []) == Wait(d, e);
    var one := OneMore(front, e, false);
    if one.Some? {
      BlankNoted(d, RecordOf(e, 1, 0), RecordOf(e, 1, 0).body);
    }
  }

  lemma {:induction false} OwnIsDirect(f: Items, c: CallRec)
    ensures Own(f, c) == LeavesIn(c, Direct(f))
    decreases f
  {
    hide LeafIn;
    match f
    case Done => {}
    case Leaf(e, rest) =>
      OwnIsDirect(rest, LeafIn(c, e));
      LeavesJoin(c, [e], Direct(rest));
      LeavesOne(c, e);
    case Destruct(_, _, leaves, _, rest) =>
      OwnIsDirect(rest, LeavesIn(c, leaves));
      LeavesJoin(c, leaves, Direct(rest));
    case Sub(_, _, _, rest) => OwnIsDirect(rest, c);
  }

  lemma {:induction false} DirectAreLeaves(f: Items, inside: bool)
    requires WellFormed(f, inside)
    ensures AllLeaves(Direct(f))
    decreases f
  {
    match f
    case Done => {}
    case Leaf(e, rest) => DirectAreLeaves(rest, inside);
    case Destruct(_, _, leaves, _, rest) =>
      assert forall i :: 0 <= i < |leaves| ==> LeafAllowed(leaves[i], inside);
      DirectAreLeaves(rest, inside);
    case Sub(_, inner, _, rest) => DirectAreLeaves(rest, inside);
  }

  lemma {:induction false} SameSize(f: Items)
    ensures CallsIn(f) == Size(f)
    decreases f
  {
    match f
    case Done => {}
    case Leaf(_, rest) => SameSize(rest);
    case Destruct(_, _, _, _, rest) => SameSize(rest);
    case Sub(_, inner, _, rest) =>
      SameSize(inner);
      SameSize(rest);
  }

  // ---------------------------------------------------------------- every call of the outline

  /** The outline's call `c` is the reported `o`, ordinals, log indexes, reverts and preimages left open. */
  ghost predicate OutlineTold(ctx: Ctx, reader: bool, o: Reported, c: CallRec) {
    && FrameTold(ctx, reader, o, c) && AllLeaves(o.before) && AllLeaves(o.own)
    && c.lists == Reporting(Reporting(NO_CHANGES, o.before, false), o.own, true)
  }

  lemma NewCallTold(ctx: Ctx, reader: bool, o: Reported, c: CallRec)
    requires CallAllowed(o.frame) && AllLeaves(o.before) && AllLeaves(o.own)
    requires var start := Numbered(NewCall(o.frame, DelegationOf(ctx, reader, o.frame), 0,
                                           Reporting(NO_CHANGES, o.before, false)), o.index, o.depth, o.parent);
      c == Closed(LeavesIn(start, o.own), o.exit, 0)
    ensures OutlineTold(ctx, reader, o, c)
  {
    hide LeavesIn, Reporting, Executes, Destructs, AllLeaves;
    var start := Numbered(NewCall(o.frame, DelegationOf(ctx, reader, o.frame), 0,
                                  Reporting(NO_CHANGES, o.before, false)), o.index, o.depth, o.parent);
    NoChangesBlank();
    ReportingBlank(NO_CHANGES, o.before, false);
    LeavesReport(start, o.own);
    ErrorsAreGasless(o.exit.err);
    hide CostsNoGas, Gasless;
  }

  lemma ErrorsAreGasless(err: seq<string>)
    ensures CostsNoGas(err) <==> Gasless(err)
  {
  }

  ghost predicate AllTold(ctx: Ctx, reader: bool, os: seq<Reported>, cs: seq<CallRec>) {
    |os| == |cs| && forall i :: 0 <= i < |os| ==> OutlineTold(ctx, reader, os[i], cs[i])
  }

  lemma {:induction false} OutlineIsTold(ctx: Ctx, reader: bool, f: Items, depth: nat, parent: nat, next: nat,
                                         waiting: seq<TxEvent>, pending: Lists, reverted: bool)
    requires WellFormed(f, depth > 0) && AllLeaves(waiting) && pending == WaitAll(NO_CHANGES, waiting)
    ensures AllTold(ctx, reader, Reports(f, depth, parent, next, waiting, reverted),
                    Calls(ctx, reader, f, depth, parent, next, pending))
    decreases f, 1
  {
    hide OutlineTold, WaitAll, Wait, Own, DelegationOf, Closed, LeafIn, NewCall, Numbered;
    match f
    case Done => {}
    case Leaf(e, rest) =>
      WaitJoin(NO_CHANGES, waiting, [e]);
      WaitSingle(pending, e);
      OutlineIsTold(ctx, reader, rest, depth, parent, next, if depth == 0 then waiting + [e] else waiting,
                    if depth == 0 then Wait(pending, e) else pending, reverted);
    case Destruct(_, _, leaves, _, rest) =>
      assert forall i :: 0 <= i < |leaves| ==> LeafAllowed(leaves[i], depth > 0);
      WaitJoin(NO_CHANGES, waiting, leaves);
      OutlineIsTold(ctx, reader, rest, depth, parent, next, if depth == 0 then waiting + leaves else waiting,
                    if depth == 0 then WaitAll(pending, leaves) else pending, reverted);
    case Sub(_, _, _, _) => SubOutlineTold(ctx, reader, f, depth, parent, next, waiting, pending, reverted);
  }

  lemma {:induction false} SubOutlineTold(ctx: Ctx, reader: bool, f: Items, depth: nat, parent: nat, next: nat,
                                          waiting: seq<TxEvent>, pending: Lists, reverted: bool)
    requires f.Sub? && WellFormed(f, depth > 0) && AllLeaves(waiting) && pending == WaitAll(NO_CHANGES, waiting)
    ensures AllTold(ctx, reader, Reports(f, depth, parent, next, waiting, reverted),
                    Calls(ctx, reader, f, depth, parent, next, pending))
    decreases f, 0
  {
    hide AllTold, AllLeaves, OutlineTold, WaitAll, Reports, Calls;
    var inner, rest, under := f.inner, f.rest, reverted || f.exit.reverted;
    SubIsTold(ctx, reader, f, depth, parent, next, waiting, pending, reverted);
    NothingWaits();
    NoLeaves();
    OutlineIsTold(ctx, reader, inner, depth + 1, next, next + 1, [], NO_CHANGES, under);
    OutlineIsTold(ctx, reader, rest, depth, parent, next + 1 + Size(inner), [], NO_CHANGES, reverted);
    SameSize(inner);
    SubUnfolds(ctx, reader, f, depth, parent, next, waiting, pending, reverted);
    ToldJoin(ctx, reader, Reports(f, depth, parent, next, waiting, reverted)[0],
             Calls(ctx, reader, f, depth, parent, next, pending)[0],
             Reports(inner, depth + 1, next, next + 1, [], under),
             Calls(ctx, reader, inner, depth + 1, next, next + 1, NO_CHANGES),
             Reports(rest, depth, parent, next + 1 + Size(inner), [], reverted),
             Calls(ctx, reader, rest, depth, parent, next + 1 + Size(inner), NO_CHANGES));
  }

  lemma SubUnfolds(ctx: Ctx, reader: bool, f: Items, depth: nat, parent: nat, next: nat, waiting: seq<TxEvent>,
                   pending: Lists, reverted: bool)
    requires f.Sub? && CallsIn(f.inner) == Size(f.inner)
    ensures var os, cs := Reports(f, depth, parent, next, waiting, reverted),
                          Calls(ctx, reader, f, depth, parent, next, pending);
      && |os| > 0 && |cs| > 0
      && os == [os[0]] + Reports(f.inner, depth + 1, next, next + 1, [], reverted || f.exit.reverted)
               + Reports(f.rest, depth, parent, next + 1 + Size(f.inner), [], reverted)
      && cs == [cs[0]] + Calls(ctx, reader, f.inner, depth + 1, next, next + 1, NO_CHANGES)
               + Calls(ctx, reader, f.rest, depth, parent, next + 1 + Size(f.inner), NO_CHANGES)
  {
    hide Own, DelegationOf, Closed, NewCall, Numbered, Direct;
  }

  lemma ToldJoin(ctx: Ctx, reader: bool, o: Reported, c: CallRec, os: seq<Reported>, cs: seq<CallRec>,
                 os': seq<Reported>, cs': seq<CallRec>)
    requires OutlineTold(ctx, reader, o, c) && AllTold(ctx, reader, os, cs) && AllTold(ctx, reader, os', cs')
    ensures AllTold(ctx, reader, [o] + os + os', [c] + cs + cs')
  {
    hide OutlineTold;
  }

  lemma WaitSingle(d: Lists, e: TxEvent)
    ensures WaitAll(d, [e]) == Wait(d, e)
  {
    assert [e][1..] == [];
  }

  lemma NoLeaves()
    ensures AllLeaves([])
  {
  }

  lemma NothingWaits()
    ensures WaitAll(NO_CHANGES, []) == NO_CHANGES
  {
  }

  lemma SubIsTold(ctx: Ctx, reader: bool, f: Items, depth: nat, parent: nat, next: nat, waiting: seq<TxEvent>,
                  pending: Lists, reverted: bool)
    requires f.Sub? && WellFormed(f, depth > 0) && AllLeaves(waiting) && pending == WaitAll(NO_CHANGES, waiting)
    ensures var os, cs := Reports(f, depth, parent, next, waiting, reverted),
                          Calls(ctx, reader, f, depth, parent, next, pending);
      OutlineTold(ctx, reader, os[0], cs[0])
  {
    hide OutlineTold, WaitAll, LeavesIn, Own, AllLeaves;
    WaitReports(waiting);
    DirectAreLeaves(f.inner, true);
    var start := Numbered(NewCall(f.frame, DelegationOf(ctx, reader, f.frame), 0, pending), next, depth, parent);
    OwnIsDirect(f.inner, start);
    NewCallTold(ctx, reader, Reports(f, depth, parent, next, waiting, reverted)[0],
                Closed(LeavesIn(start, Direct(f.inner)), f.exit, 0));
  }

  // ---------------------------------------------------------------- reverts

  /** A reported call is reverted by its own exit or with the call around it. */
  predicate MarkedBy(os: seq<Reported>, i: nat, parent: nat, next: nat, reverted: bool)
    requires i < |os|
  {
    || (os[i].parent == parent && (os[i].reverted <==> reverted || os[i].exit.reverted))
    || (next <= os[i].parent < next + i
        && (os[i].reverted <==> os[os[i].parent - next].reverted || os[i].exit.reverted))
  }

  predicate AllMarked(os: seq<Reported>, parent: nat, next: nat, reverted: bool) {
    forall i :: 0 <= i < |os| ==> MarkedBy(os, i, parent, next, reverted)
  }

  lemma {:induction false} ReportsMarked(f: Items, depth: nat, parent: nat, next: nat, waiting: seq<TxEvent>,
                                         reverted: bool)
    ensures var os := Reports(f, depth, parent, next, waiting, reverted);
      |os| == CallsIn(f) && AllMarked(os, parent, next, reverted)
    decreases f
  {
    match f
    case Done => {}
    case Leaf(e, rest) =>
      ReportsMarked(rest, depth, parent, next, if depth == 0 then waiting + [e] else waiting, reverted);
    case Destruct(_, _, leaves, _, rest) =>
      ReportsMarked(rest, depth, parent, next, if depth == 0 then waiting + leaves else waiting, reverted);
    case Sub(frame, inner, exit, rest) =>
      var under := reverted || exit.reverted;
      ReportsMarked(inner, depth + 1, next, next + 1, [], under);
      ReportsMarked(rest, depth, parent, next + 1 + CallsIn(inner), [], reverted);
      MarksJoin(Reported(frame, exit, next, depth, parent, waiting, Direct(inner), under),
                Reports(inner, depth + 1, next, next + 1, [], under),
                Reports(rest, depth, parent, next + 1 + CallsIn(inner), [], reverted), next, reverted);
  }

  lemma MarksJoin(o: Reported, a: seq<Reported>, b: seq<Reported>, next: nat, reverted: bool)
    requires o.index == next && (o.reverted <==> reverted || o.exit.reverted)
    requires AllMarked(a, next, next + 1, o.reverted) && AllMarked(b, o.parent, next + 1 + |a|, reverted)
    ensures AllMarked([o] + a + b, o.parent, next, reverted)
  {
    var all := [o] + a + b;
    forall i | 0 <= i < |all| ensures MarkedBy(all, i, o.parent, next, reverted) {
      if 0 < i <= |a| {
        assert all[i] == a[i - 1] && MarkedBy(a, i - 1, next, next + 1, o.reverted);
        assert a[i - 1].parent > next ==> all[a[i - 1].parent - next] == a[a[i - 1].parent - next - 1];
      } else if i > |a| {
        var j := i - |a| - 1;
        assert all[i] == b[j] && MarkedBy(b, j, o.parent, next + 1 + |a|, reverted);
        var p := b[j].parent - next;
        assert |a| < p < i ==> all[p] == b[p - 1 - |a|];
      }
    }
  }

  lemma {:induction false} RevertsTold(cs: seq<CallRec>, os: seq<Reported>, i: nat)
    requires |cs| == |os| && i < |cs|
    requires forall k :: 0 <= k < |cs| ==>
      cs[k].parentIndex == os[k].parent && cs[k].statusFailed == os[k].exit.reverted
    requires AllMarked(os, 0, 1, false)
    ensures cs[i].parentIndex <= i && (Trees.SomeFailed(cs, i) <==> os[i].reverted)
    decreases i
  {
    hide Trees.SomeFailed;
    assert MarkedBy(os, i, 0, 1, false);
    Trees.FailedStep(cs, i);
    if cs[i].parentIndex > 0 {
      RevertsTold(cs, os, cs[i].parentIndex - 1);
    }
  }

  // ---------------------------------------------------------------- completed calls

  /** Call `c` of a completed transaction is the reported `o`; `extra` was reported after the last root call. */
  ghost predicate CallTold(cfg: Config, ctx: Ctx, reader: bool, o: Reported, extra: seq<TxEvent>, c: CallRec) {
    && FrameTold(ctx, reader, o, c) && ListsTold(cfg, o, extra, c.stateReverted, c)
    && (c.stateReverted <==> o.reverted)
  }

  predicate NoLogs(bodies: seq<Body>) { forall i :: 0 <= i < |bodies| ==> !bodies[i].Log? }

  predicate OnlyLogs(bodies: seq<Body>) { forall i :: 0 <= i < |bodies| ==> bodies[i].Log? }

  lemma {:induction false} Kinds(es: seq<TxEvent>, inCall: bool)
    ensures NoLogs(BalancesIn(es)) && NoLogs(NoncesIn(es)) && NoLogs(CodesIn(es, inCall)) && NoLogs(StoragesIn(es))
    ensures OnlyLogs(LogsIn(es))
    decreases |es|
  {
    hide Destructs;
    if |es| > 0 {
      Kinds(es[..|es| - 1], inCall);
    }
  }

  lemma BodiesBlank(s: seq<Change>, bodies: seq<Body>)
    requires BlankChanges(s) == Blanks(bodies) && NoLogs(bodies)
    ensures BodiesAre(s, bodies)
  {
    forall i | 0 <= i < |s| ensures s[i].body == bodies[i] {
      assert BlankChanges(s)[i] == Blanks(bodies)[i];
    }
  }

  lemma LogsBlank(cfg: Config, s: seq<Change>, bodies: seq<Body>, reverted: bool)
    requires OnlyLogs(bodies)
    requires BlankChanges(s) == if reverted then MapSeq(ClearLog(cfg), Blanks(bodies)) else Blanks(bodies)
    ensures LogsAre(cfg, s, bodies, reverted)
  {
    assert |s| == |BlankChanges(s)| == |bodies|;
    forall i | 0 <= i < |s| ensures LogIs(cfg, s[i], bodies[i], reverted) {
      var r := if reverted then MapSeq(ClearLog(cfg), Blanks(bodies)) else Blanks(bodies);
      assert BlankChanges(s)[i] == r[i] && Blanks(bodies)[i] == Change(0, bodies[i]);
    }
  }

  lemma BlanksJoin3(a: seq<Body>, b: seq<Body>, c: seq<Body>)
    ensures Blanks(a) + Blanks(b) + Blanks(c) == Blanks(a + b + c)
  {
  }

  lemma RenderedFrame(cfg: Config, ctx: Ctx, reader: bool, o: Reported, o': CallRec, extra: Lists, c: CallRec)
    requires FrameTold(ctx, reader, o, o') && Renders(cfg, o', extra, c)
    ensures FrameTold(ctx, reader, o, c)
  {
    hide LooksUp, Executes, Destructs, Gasless, KindIs, BlankLists, Concat;
  }

  lemma RenderedLists(cfg: Config, o': CallRec, extra: Lists, c: CallRec)
    requires Renders(cfg, o', extra, c)
    ensures BlankChanges(c.lists.balance) == o'.lists.balance + extra.balance
    ensures BlankChanges(c.lists.nonce) == o'.lists.nonce + extra.nonce
    ensures BlankChanges(c.lists.code) == o'.lists.code + extra.code
    ensures BlankChanges(c.lists.storage) == o'.lists.storage + extra.storage
    ensures var logs := o'.lists.logs + extra.logs;
      BlankChanges(c.lists.logs) == if c.stateReverted then MapSeq(ClearLog(cfg), logs) else logs
  {
  }

  lemma ListTold(s: seq<Change>, before: seq<Body>, own: seq<Body>, extra: seq<Body>)
    requires BlankChanges(s) == ([] + Blanks(before)) + Blanks(own) + ([] + Blanks(extra))
    requires NoLogs(before) && NoLogs(own) && NoLogs(extra)
    ensures BodiesAre(s, before + own + extra)
  {
    BlanksJoin3(before, own, extra);
    assert [] + Blanks(before) == Blanks(before) && [] + Blanks(extra) == Blanks(extra);
    BodiesBlank(s, before + own + extra);
  }

  lemma LogListTold(cfg: Config, s: seq<Change>, before: seq<Body>, own: seq<Body>, extra: seq<Body>, reverted: bool)
    requires var logs := ([] + Blanks(before)) + Blanks(own) + ([] + Blanks(extra));
      BlankChanges(s) == if reverted then MapSeq(ClearLog(cfg), logs) else logs
    requires OnlyLogs(before) && OnlyLogs(own) && OnlyLogs(extra)
    ensures LogsAre(cfg, s, before + own + extra, reverted)
  {
    BlanksJoin3(before, own, extra);
    assert [] + Blanks(before) == Blanks(before) && [] + Blanks(extra) == Blanks(extra);
    LogsBlank(cfg, s, before + own + extra, reverted);
  }

  lemma ListsAreTold(cfg: Config, o: Reported, extra: seq<TxEvent>, l: Lists, c: CallRec)
    requires l == Reporting(Reporting(NO_CHANGES, o.before, false), o.own, true)
    requires BlankChanges(c.lists.balance) == l.balance + Reporting(NO_CHANGES, extra, false).balance
    requires BlankChanges(c.lists.nonce) == l.nonce + Reporting(NO_CHANGES, extra, false).nonce
    requires BlankChanges(c.lists.code) == l.code + Reporting(NO_CHANGES, extra, false).code
    requires BlankChanges(c.lists.storage) == l.storage + Reporting(NO_CHANGES, extra, false).storage
    requires var logs := l.logs + Reporting(NO_CHANGES, extra, false).logs;
      BlankChanges(c.lists.logs) == if c.stateReverted then MapSeq(ClearLog(cfg), logs) else logs
    ensures ListsTold(cfg, o, extra, c.stateReverted, c)
  {
    Kinds(o.before, false);
    Kinds(o.own, true);
    Kinds(extra, false);
    hide Blanks, BlankChanges, NoLogs, OnlyLogs, BalancesIn, NoncesIn, CodesIn, StoragesIn, LogsIn, BodiesAre, LogsAre;
    ListTold(c.lists.balance, BalancesIn(o.before), BalancesIn(o.own), BalancesIn(extra));
    ListTold(c.lists.nonce, NoncesIn(o.before), NoncesIn(o.own), NoncesIn(extra));
    ListTold(c.lists.code, CodesIn(o.before, false), CodesIn(o.own, true), CodesIn(extra, false));
    ListTold(c.lists.storage, StoragesIn(o.before), StoragesIn(o.own), StoragesIn(extra));
    LogListTold(cfg, c.lists.logs, LogsIn(o.before), LogsIn(o.own), LogsIn(extra), c.stateReverted);
  }

  lemma RenderedIsTold(cfg: Config, ctx: Ctx, reader: bool, o: Reported, extra: seq<TxEvent>, o': CallRec, c: CallRec)
    requires OutlineTold(ctx, reader, o, o') && AllLeaves(extra)
    requires Renders(cfg, o', Reporting(NO_CHANGES, extra, false), c)
    ensures FrameTold(ctx, reader, o, c) && ListsTold(cfg, o, extra, c.stateReverted, c)
  {
    hide Renders, FrameTold, Reporting, BlankChanges, ListsTold;
    RenderedFrame(cfg, ctx, reader, o, o', Reporting(NO_CHANGES, extra, false), c);
    RenderedLists(cfg, o', Reporting(NO_CHANGES, extra, false), c);
    ListsAreTold(cfg, o, extra, o'.lists, c);
  }

  lemma {:induction false} TrailingWaits(f: Items, waiting: seq<TxEvent>, pending: Lists)
    requires WellFormed(f, false) && AllLeaves(waiting) && pending == WaitAll(NO_CHANGES, waiting)
    ensures AllLeaves(Trailing(f, waiting))
    ensures Leftover(f, pending) == Reporting(NO_CHANGES, Trailing(f, waiting), false)
    decreases f
  {
    hide WaitAll, Wait, Reporting;
    match f
    case Done => WaitReports(waiting);
    case Leaf(e, rest) =>
      WaitJoin(NO_CHANGES, waiting, [e]);
      WaitSingle(pending, e);
      TrailingWaits(rest, waiting + [e], Wait(pending, e));
    case Destruct(_, _, leaves, _, rest) =>
      assert forall i :: 0 <= i < |leaves| ==> LeafAllowed(leaves[i], false);
      WaitJoin(NO_CHANGES, waiting, leaves);
      TrailingWaits(rest, waiting + leaves, WaitAll(pending, leaves));
    case Sub(_, _, _, rest) =>
      NothingWaits();
      TrailingWaits(rest, [], NO_CHANGES);
  }

  /** The reported calls of a transaction's forest. */
  function ReportsOf(f: Items): seq<Reported> { Reports(f, 0, 0, 1, [], false) }

  function ExtraTold(f: Items, i: nat): seq<TxEvent> { if i == 0 then Trailing(f, []) else [] }

  /** The calls of a completed transaction are, in the order of their entries, exactly what the hook calls told. */
  ghost predicate CallsTold(cfg: Config, prague: bool, reader: bool, f: Items, calls: seq<CallRec>) {
    var os := ReportsOf(f);
    |calls| == |os| == CallsIn(f)
    && forall i :: 0 <= i < |calls| ==> CallTold(cfg, TxCtx(prague), reader, os[i], ExtraTold(f, i), calls[i])
  }

  lemma ForestIsTold(cfg: Config, prague: bool, reader: bool, f: Items, calls: seq<CallRec>)
    requires WellFormed(f, false) && IsForest(cfg, prague, reader, f, calls)
    ensures CallsTold(cfg, prague, reader, f, calls)
  {
    hide OutlineTold, Renders, FrameTold, ListsTold, Trees.SomeFailed, Trees.WellNested, ChangesInOrder, Calls, Reports;
    hide Outline.Leftover, Reporting, Trailing, AllLeaves;
    var os, outline := ReportsOf(f), Calls(TxCtx(prague), reader, f, 0, 0, 1, NO_CHANGES);
    NothingWaits();
    NoLeaves();
    OutlineIsTold(TxCtx(prague), reader, f, 0, 0, 1, [], NO_CHANGES, false);
    TrailingWaits(f, [], NO_CHANGES);
    SameSize(f);
    ReportsMarked(f, 0, 0, 1, [], false);
    forall i | 0 <= i < |calls|
      ensures FrameTold(TxCtx(prague), reader, os[i], calls[i])
      ensures ListsTold(cfg, os[i], ExtraTold(f, i), calls[i].stateReverted, calls[i])
    {
      NothingReported(NO_CHANGES, false);
      RenderedIsTold(cfg, TxCtx(prague), reader, os[i], ExtraTold(f, i), outline[i], calls[i]);
    }
    forall i | 0 <= i < |calls|
      ensures calls[i].parentIndex == os[i].parent && calls[i].statusFailed == os[i].exit.reverted
    {
      FrameMarks(TxCtx(prague), reader, os[i], calls[i]);
    }
    forall i | 0 <= i < |calls| ensures calls[i].stateReverted <==> os[i].reverted {
      RevertsTold(calls, os, i);
    }
  }

  lemma FrameMarks(ctx: Ctx, reader: bool, o: Reported, c: CallRec)
    requires FrameTold(ctx, reader, o, c)
    ensures c.parentIndex == o.parent && c.statusFailed == o.exit.reverted
  {
  }

  /** The completed transaction of a forest: each call has the entry, number, parent, kind, delegation, gas, output,
      failure and reverts its hook calls reported, and holds exactly the changes and logs they reported. */
  lemma TransactionIsTold(cfg: Config, prague: bool, st: Stream, f: Items, base: nat)
    requires WellFormed(f, false) && st.body == Flatten(f, 0)
    ensures var t := Trace(cfg, prague, st, base);
      t.Ok? && t.value.trx.Some? ==> CallsTold(cfg, prague, st.reader, f, t.value.trx.value.calls)
  {
    hide Trace, IsForest, CallsTold;
    ForestRoundTrip(cfg, prague, st, f, base);
    var t := Trace(cfg, prague, st, base);
    if t.Ok? && t.value.trx.Some? {
      ForestIsTold(cfg, prague, st.reader, f, t.value.trx.value.calls);
    }
  }
}
