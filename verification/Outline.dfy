/** What the traced calls of a forest are, read off the forest alone: numbering, nesting and placement of
    changes, with ordinals and log indexes blanked out. */
module Outline {
  import opened Bytes
  import opened Wrappers
  import opened Model
  import opened Sorting
  import opened Machine
  import opened Forest
  import opened Relabel

  // ---------------------------------------------------------------- blanking

  function BlankBody(b: Body): Body {
    if b.Log? then b.(index := 0) else b
  }

  function Blank(): Change -> Change { (c: Change) => Change(0, BlankBody(c.body)) }

  function BlankChanges(s: seq<Change>): seq<Change> { MapSeq(Blank(), s) }

  function BlankLists(l: Lists): Lists {
    Lists(BlankChanges(l.balance), BlankChanges(l.nonce), BlankChanges(l.code), BlankChanges(l.storage),
          BlankChanges(l.logs))
  }

  function BlankCall(c: CallRec): CallRec {
    c.(beginOrdinal := 0, endOrdinal := 0, lists := BlankLists(c.lists))
  }

  function BlankCalls(s: seq<CallRec>): seq<CallRec> {
    seq(|s|, i requires 0 <= i < |s| => BlankCall(s[i]))
  }

  lemma BlankAddTo(l: Lists, c: Change)
    ensures BlankLists(AddTo(l, c)) == AddTo(BlankLists(l), Blank()(c))
  {
    MapConcat(Blank(), l.balance, [c]);
    MapConcat(Blank(), l.nonce, [c]);
    MapConcat(Blank(), l.code, [c]);
    MapConcat(Blank(), l.storage, [c]);
    MapConcat(Blank(), l.logs, [c]);
    assert MapSeq(Blank(), [c]) == [Blank()(c)];
  }

  lemma BlankTwice(l: Lists)
    ensures BlankLists(BlankLists(l)) == BlankLists(l)
  {
    var b := BlankLists(l);
    assert BlankChanges(b.balance) == b.balance && BlankChanges(b.nonce) == b.nonce && BlankChanges(b.code) == b.code;
    assert BlankChanges(b.storage) == b.storage && BlankChanges(b.logs) == b.logs;
  }

  // ---------------------------------------------------------------- the outline of a forest

  /** A leaf applied to the call it happens in. */
  function LeafIn(c: CallRec, e: TxEvent): CallRec { BlankCall(LeafOnCall(c, e, 0, 0)) }

  function LeavesIn(c: CallRec, es: seq<TxEvent>): CallRec
    decreases |es|
  {
    if |es| == 0 then c else LeavesIn(LeafIn(c, es[0]), es[1..])
  }

  /** The effect on a call of what happens directly in it; nothing inside its sub-calls touches it. */
  function Own(f: Items, c: CallRec): CallRec {
    match f
    case Done => c
    case Leaf(e, rest) => Own(rest, LeafIn(c, e))
    case Destruct(_, _, leaves, _, rest) => Own(rest, LeavesIn(c, leaves))
    case Sub(_, _, _, rest) => Own(rest, c)
  }

  function Wait(d: Lists, e: TxEvent): Lists { BlankLists(LeafOutside(d, e, 0, 0)) }

  function WaitAll(d: Lists, es: seq<TxEvent>): Lists
    decreases |es|
  {
    if |es| == 0 then d else WaitAll(Wait(d, es[0]), es[1..])
  }

  function Size(f: Items): nat {
    match f
    case Done => 0
    case Leaf(_, rest) => Size(rest)
    case Destruct(_, _, _, _, rest) => Size(rest)
    case Sub(_, inner, _, rest) => 1 + Size(inner) + Size(rest)
  }

  /** The calls of `f` in preorder, numbered from `next`, at nesting `depth` under call `parent` (zero for
      none). `pending` are the changes made outside any call that wait for the next root call. */
  function Calls(ctx: Ctx, reader: bool, f: Items, depth: nat, parent: nat, next: nat, pending: Lists): seq<CallRec> {
    match f
    case Done => []
    case Leaf(e, rest) =>
      Calls(ctx, reader, rest, depth, parent, next, if depth == 0 then Wait(pending, e) else pending)
    case Destruct(_, _, leaves, _, rest) =>
      Calls(ctx, reader, rest, depth, parent, next, if depth == 0 then WaitAll(pending, leaves) else pending)
    case Sub(frame, inner, exit, rest) =>
      var start := Numbered(NewCall(frame, DelegationOf(ctx, reader, frame), 0, pending), next, depth, parent);
      [Closed(Own(inner, start), exit, 0)]
      + Calls(ctx, reader, inner, depth + 1, next, next + 1, NO_CHANGES)
      + Calls(ctx, reader, rest, depth, parent, next + 1 + Size(inner), NO_CHANGES)
  }

  /** Changes made outside any call after the last root call. */
  function Leftover(f: Items, pending: Lists): Lists {
    match f
    case Done => pending
    case Leaf(e, rest) => Leftover(rest, Wait(pending, e))
    case Destruct(_, _, leaves, _, rest) => Leftover(rest, WaitAll(pending, leaves))
    case Sub(_, _, _, rest) => Leftover(rest, NO_CHANGES)
  }

  // ---------------------------------------------------------------- traced calls match the outline

  lemma LeafBlanked(c: CallRec, e: TxEvent, ord: nat, logIndex: nat)
    ensures BlankCall(LeafOnCall(c, e, ord, logIndex)) == LeafIn(BlankCall(c), e)
  {
    hide BlankLists, AddTo, IgnoredAfterSuicide, IsNoOp;
    BlankTwice(c.lists);
    assert Records(e, Some(c)) == Records(e, Some(BlankCall(c))) by { SameRecords(c, e); }
    if Records(e, Some(c)) {
      var r, r0 := RecordOf(e, ord + 1, logIndex), RecordOf(e, 1, 0);
      BlankAddTo(c.lists, r);
      BlankAddTo(BlankLists(c.lists), r0);
      assert Blank()(r) == Blank()(r0);
    }
  }

  lemma SameRecords(c: CallRec, e: TxEvent)
    ensures Records(e, Some(c)) == Records(e, Some(BlankCall(c)))
  {
  }

  lemma WaitBlanked(d: Lists, e: TxEvent, ord: nat, logIndex: nat)
    ensures BlankLists(LeafOutside(d, e, ord, logIndex)) == Wait(BlankLists(d), e)
  {
    BlankTwice(d);
    if Records(e, None) {
      var r, r0 := RecordOf(e, ord + 1, logIndex), RecordOf(e, 1, 0);
      BlankAddTo(d, r);
      BlankAddTo(BlankLists(d), r0);
      assert Blank()(r) == Blank()(r0);
    }
  }

  lemma {:induction false} LeavesBlanked(h: Holder, es: seq<TxEvent>, env: Env)
    ensures var r := LeavesOn(h, es, env);
      && r.1.index == env.index
      && (h.Inside? ==> BlankCall(r.0.c) == LeavesIn(BlankCall(h.c), es) && r.0.c.index == h.c.index)
      && (h.Outside? ==> BlankLists(r.0.d) == WaitAll(BlankLists(h.d), es))
    decreases |es|
  {
    hide BlankLists, LeafOnCall, LeafOutside;
    if |es| > 0 {
      if h.Inside? {
        LeafBlanked(h.c, es[0], env.ord, env.logIndex);
        SameNumber(h.c, es[0], env);
      } else {
        WaitBlanked(h.d, es[0], env.ord, env.logIndex);
      }
      LeavesBlanked(LeafOn(h, es[0], env), es[1..], After(h, es[0], env));
    }
  }

  lemma SameNumber(c: CallRec, e: TxEvent, env: Env)
    ensures LeafOnCall(c, e, env.ord, env.logIndex).index == c.index
  {
  }

  function ParentOf(h: Holder): nat { if h.Inside? then h.c.index else 0 }

  function PendingOf(h: Holder): Lists { if h.Outside? then BlankLists(h.d) else NO_CHANGES }

  /** A built trace is the one the outline describes. */
  ghost predicate Described(ctx: Ctx, reader: bool, f: Items, depth: nat, h: Holder, env: Env, b: Built)
    requires b.h.Inside? == h.Inside?
  {
    && BlankCalls(b.pre) == Calls(ctx, reader, f, depth, ParentOf(h), env.index + 1, PendingOf(h))
    && b.env.index == env.index + Size(f) && |b.pre| == Size(f)
    && (h.Inside? ==> BlankCall(b.h.c) == Own(f, BlankCall(h.c)) && b.h.c.index == h.c.index)
    && (h.Outside? ==> BlankLists(b.h.d) == Leftover(f, BlankLists(h.d)))
  }

  lemma {:induction false} BuildDescribed(ctx: Ctx, reader: bool, f: Items, depth: nat, h: Holder, env: Env)
    requires h.Inside? == (depth > 0)
    ensures Described(ctx, reader, f, depth, h, env, Build(ctx, reader, f, depth, h, env))
    decreases f
  {
    hide BlankLists, BlankCall, LeafOnCall, LeafOutside;
    match f
    case Done =>
    case Leaf(e, rest) =>
      if h.Inside? {
        LeafBlanked(h.c, e, env.ord, env.logIndex);
        SameNumber(h.c, e, env);
      } else {
        WaitBlanked(h.d, e, env.ord, env.logIndex);
      }
      BuildDescribed(ctx, reader, rest, depth, LeafOn(h, e, env), After(h, e, env));
    case Destruct(_, _, leaves, _, rest) =>
      LeavesBlanked(h, leaves, env);
      var r := LeavesOn(h, leaves, env);
      BuildDescribed(ctx, reader, rest, depth, r.0, r.1);
    case Sub(frame, inner, exit, rest) =>
      var env1 := env.(ord := env.ord + 1, index := env.index + 1);
      var child := Child(ctx, reader, frame, depth, h, env);
      BuildDescribed(ctx, reader, inner, depth + 1, Inside(child), env1);
      var i := Build(ctx, reader, inner, depth + 1, Inside(child), env1);
      var h2 := if h.Outside? then Outside(NO_CHANGES) else h;
      var env2 := i.env.(ord := i.env.ord + 1);
      BuildDescribed(ctx, reader, rest, depth, h2, env2);
      CallDescribed(ctx, reader, f, depth, h, env, i, Build(ctx, reader, rest, depth, h2, env2));
  }

  lemma CallDescribed(ctx: Ctx, reader: bool, f: Items, depth: nat, h: Holder, env: Env, i: Built, r: Built)
    requires f.Sub? && h.Inside? == (depth > 0)
    requires var env1 := env.(ord := env.ord + 1, index := env.index + 1);
      var child := Inside(Child(ctx, reader, f.frame, depth, h, env));
      i.h.Inside? && i == Build(ctx, reader, f.inner, depth + 1, child, env1)
      && Described(ctx, reader, f.inner, depth + 1, child, env1, i)
    requires var h2, env2 := if h.Outside? then Outside(NO_CHANGES) else h, i.env.(ord := i.env.ord + 1);
      r.h.Inside? == h.Inside? && r == Build(ctx, reader, f.rest, depth, h2, env2)
      && Described(ctx, reader, f.rest, depth, h2, env2, r)
    ensures Described(ctx, reader, f, depth, h, env, Build(ctx, reader, f, depth, h, env))
  {
    hide BlankLists, BlankCall, BlankCalls, NewCall, Child, Closed, Numbered, DelegationOf, LeafOn, After, LeavesOn;
    hide LeavesIn, LeafIn, Wait, WaitAll;
    NothingBlank();
    ChildBlanked(ctx, reader, f.frame, depth, h, env);
    var closed := Closed(i.h.c, f.exit, i.env.ord + 1);
    CloseBlanked(i.h.c, f.exit, i.env.ord + 1);
    JoinBlanked(closed, i.pre, r.pre);
  }

  lemma NothingBlank()
    ensures BlankLists(NO_CHANGES) == NO_CHANGES
  {
  }

  lemma ChildBlanked(ctx: Ctx, reader: bool, frame: Frame, depth: nat, h: Holder, env: Env)
    ensures BlankCall(Child(ctx, reader, frame, depth, h, env))
         == Numbered(NewCall(frame, DelegationOf(ctx, reader, frame), 0, PendingOf(h)), env.index + 1, depth,
                     ParentOf(h))
    ensures Child(ctx, reader, frame, depth, h, env).index == env.index + 1
  {
    NothingBlank();
  }

  lemma CloseBlanked(c: CallRec, exit: Exit, end: nat)
    ensures BlankCall(Closed(c, exit, end)) == Closed(BlankCall(c), exit, 0)
  {
    hide BlankLists, KindOf, CostsNoGas;
    if exit.reverted {
      assert Closed(c, exit, end).statusFailed;
    }
  }

  lemma JoinBlanked(c: CallRec, a: seq<CallRec>, b: seq<CallRec>)
    ensures BlankCalls([c] + a + b) == [BlankCall(c)] + BlankCalls(a) + BlankCalls(b)
  {
  }

  /** The outline numbers calls consecutively in preorder, and links each to a call numbered before it. */
  lemma {:induction false} OutlineNumbers(ctx: Ctx, reader: bool, f: Items, depth: nat, parent: nat, next: nat,
                                          pending: Lists)
    ensures var cs := Calls(ctx, reader, f, depth, parent, next, pending);
      |cs| == Size(f) && forall i :: 0 <= i < |cs| ==> cs[i].index == next + i
    decreases f
  {
    hide Own, Wait, WaitAll, DelegationOf, NewCall, Closed, Numbered;
    match f
    case Done =>
    case Leaf(e, rest) =>
      OutlineNumbers(ctx, reader, rest, depth, parent, next, if depth == 0 then Wait(pending, e) else pending);
    case Destruct(_, _, leaves, _, rest) =>
      OutlineNumbers(ctx, reader, rest, depth, parent, next, if depth == 0 then WaitAll(pending, leaves) else pending);
    case Sub(frame, inner, exit, rest) =>
      OutlineNumbers(ctx, reader, inner, depth + 1, next, next + 1, NO_CHANGES);
      OutlineNumbers(ctx, reader, rest, depth, parent, next + 1 + Size(inner), NO_CHANGES);
      RootNumber(NewCall(frame, DelegationOf(ctx, reader, frame), 0, pending), inner, exit, next, depth, parent);
  }

  lemma RootNumber(c: CallRec, inner: Items, exit: Exit, next: nat, depth: nat, parent: nat)
    ensures Closed(Own(inner, Numbered(c, next, depth, parent)), exit, 0).index == next
  {
    OwnKeepsNumber(inner, Numbered(c, next, depth, parent));
  }

  lemma {:induction false} LeavesKeepNumber(c: CallRec, es: seq<TxEvent>)
    ensures LeavesIn(c, es).index == c.index
    decreases |es|
  {
    hide LeafIn;
    if |es| > 0 {
      LeafKeepsNumber(c, es[0]);
      LeavesKeepNumber(LeafIn(c, es[0]), es[1..]);
    }
  }

  lemma LeafKeepsNumber(c: CallRec, e: TxEvent)
    ensures LeafIn(c, e).index == c.index
  {
  }

  lemma {:induction false} OwnKeepsNumber(f: Items, c: CallRec)
    ensures Own(f, c).index == c.index
    decreases f
  {
    hide LeafIn;
    match f
    case Done =>
    case Leaf(e, rest) =>
      LeafKeepsNumber(c, e);
      OwnKeepsNumber(rest, LeafIn(c, e));
    case Destruct(_, _, leaves, _, rest) =>
      LeavesKeepNumber(c, leaves);
      OwnKeepsNumber(rest, LeavesIn(c, leaves));
    case Sub(_, _, _, rest) => OwnKeepsNumber(rest, c);
  }
}
