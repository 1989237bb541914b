/** The interval structure of traced calls: numbering, parent links, [begin, end] intervals and the
    ordinals of the changes attached to each call. */
module Nesting {
  import opened Bytes
  import opened Wrappers
  import opened Model
  import opened Sorting
  import opened Completion
  import opened Machine
  import opened Forest
  import opened Outline

  // ---------------------------------------------------------------- change lists

  /** Strictly increasing ordinals in (lo, hi], none of them the excluded one. */
  ghost predicate Placed(s: seq<Change>, lo: nat, hi: nat, excluded: nat) {
    && StrictlyOrdered(ChangeOrdinal, s)
    && forall i :: 0 <= i < |s| ==> lo < s[i].ordinal <= hi && s[i].ordinal != excluded
  }

  ghost predicate ListsPlaced(l: Lists, lo: nat, hi: nat, excluded: nat) {
    && Placed(l.balance, lo, hi, excluded) && Placed(l.nonce, lo, hi, excluded) && Placed(l.code, lo, hi, excluded)
    && Placed(l.storage, lo, hi, excluded) && Placed(l.logs, lo, hi, excluded)
  }

  lemma PlacedWeaker(s: seq<Change>, lo: nat, hi: nat, excluded: nat, lo': nat, hi': nat, excluded': nat)
    requires Placed(s, lo, hi, excluded) && lo' <= lo && hi <= hi'
    requires excluded' == excluded || excluded' <= lo || excluded' > hi
    ensures Placed(s, lo', hi', excluded')
  {
  }

  lemma ListsPlacedWeaker(l: Lists, lo: nat, hi: nat, excluded: nat, lo': nat, hi': nat, excluded': nat)
    requires ListsPlaced(l, lo, hi, excluded) && lo' <= lo && hi <= hi'
    requires excluded' == excluded || excluded' <= lo || excluded' > hi
    ensures ListsPlaced(l, lo', hi', excluded')
  {
    hide Placed;
    PlacedWeaker(l.balance, lo, hi, excluded, lo', hi', excluded');
    PlacedWeaker(l.nonce, lo, hi, excluded, lo', hi', excluded');
    PlacedWeaker(l.code, lo, hi, excluded, lo', hi', excluded');
    PlacedWeaker(l.storage, lo, hi, excluded, lo', hi', excluded');
    PlacedWeaker(l.logs, lo, hi, excluded, lo', hi', excluded');
  }

  lemma PlacedAppend(s: seq<Change>, c: Change, lo: nat, hi: nat, excluded: nat)
    requires Placed(s, lo, hi, excluded) && c.ordinal == hi + 1 && lo <= hi && excluded <= hi
    ensures Placed(s + [c], lo, hi + 1, excluded)
  {
  }

  lemma AddPlaced(l: Lists, c: Change, lo: nat, hi: nat, excluded: nat)
    requires ListsPlaced(l, lo, hi, excluded) && c.ordinal == hi + 1 && lo <= hi && excluded <= hi
    ensures ListsPlaced(AddTo(l, c), lo, hi + 1, excluded)
  {
    hide Placed;
    ListsPlacedWeaker(l, lo, hi, excluded, lo, hi + 1, excluded);
    PlacedAppend(l.balance, c, lo, hi, excluded);
    PlacedAppend(l.nonce, c, lo, hi, excluded);
    PlacedAppend(l.code, c, lo, hi, excluded);
    PlacedAppend(l.storage, c, lo, hi, excluded);
    PlacedAppend(l.logs, c, lo, hi, excluded);
  }

  lemma NothingPlaced(lo: nat, hi: nat, excluded: nat)
    ensures ListsPlaced(NO_CHANGES, lo, hi, excluded)
  {
  }

  // ---------------------------------------------------------------- what holds along the trace

  /** Lower bound for the changes of a call: its begin, except that a root call also holds earlier
      deferred changes. */
  function FloorOf(c: CallRec): nat { if c.depth == 0 then 0 else c.beginOrdinal }

  ghost predicate HolderPlaced(h: Holder, floor: nat, ord: nat) {
    match h
    case Inside(c) => 1 <= c.beginOrdinal <= ord && ListsPlaced(c.lists, FloorOf(c), ord, c.beginOrdinal)
    case Outside(d) => floor <= ord && ListsPlaced(d, floor, ord, 0)
  }

  /** A closed call: its changes lie inside its interval, or before the begin of a root call. */
  ghost predicate CallPlaced(c: CallRec) {
    c.beginOrdinal < c.endOrdinal && ListsPlaced(c.lists, FloorOf(c), c.endOrdinal - 1, c.beginOrdinal)
  }

  /** The call at position `i` of a preorder list numbered from `base + 1`. */
  ghost predicate CallLaw(pre: seq<CallRec>, base: nat, parent: nat, lo: nat, hi: nat, i: nat)
    requires i < |pre|
  {
    var c := pre[i];
    && c.index == base + i + 1 && lo < c.beginOrdinal && c.endOrdinal <= hi && CallPlaced(c)
    && (c.parentIndex == parent
        || (base < c.parentIndex <= base + i
            && pre[c.parentIndex - base - 1].beginOrdinal < c.beginOrdinal
            && c.endOrdinal < pre[c.parentIndex - base - 1].endOrdinal))
  }

  /** Calls under one parent follow one another. */
  ghost predicate SiblingLaw(pre: seq<CallRec>) {
    forall i, j :: 0 <= i < j < |pre| && pre[i].parentIndex == pre[j].parentIndex ==>
      pre[i].endOrdinal < pre[j].beginOrdinal
  }

  /** Calls begin in the order they are numbered. */
  ghost predicate BeginLaw(pre: seq<CallRec>) {
    forall i, j :: 0 <= i < j < |pre| ==> pre[i].beginOrdinal < pre[j].beginOrdinal
  }

  ghost predicate Laws(pre: seq<CallRec>, base: nat, parent: nat, lo: nat, hi: nat) {
    && parent <= base && lo <= hi
    && (forall i :: 0 <= i < |pre| ==> CallLaw(pre, base, parent, lo, hi, i))
    && SiblingLaw(pre) && BeginLaw(pre)
  }

  /** What is deferred after the trace comes after every call in it. */
  ghost predicate LeftoverLaw(b: Built, floor: nat) {
    match b.h
    case Inside(c) => HolderPlaced(b.h, 0, b.env.ord)
    case Outside(d) =>
      && HolderPlaced(b.h, if |b.pre| == 0 then floor else 0, b.env.ord)
      && forall i :: 0 <= i < |b.pre| ==> ListsPlaced(d, b.pre[i].endOrdinal, b.env.ord, 0)
  }

  ghost predicate BuiltLaws(b: Built, h: Holder, env: Env, floor: nat) {
    && env.ord <= b.env.ord
    && Laws(b.pre, env.index, ParentOf(h), env.ord, b.env.ord)
    && LeftoverLaw(b, floor)
    && multiset(b.pre) == multiset(b.post)
    && b.env.index == env.index + |b.pre|
    && (h.Inside? && b.h.Inside? ==> SameFrame(h.c, b.h.c))
  }

  ghost predicate SameFrame(a: CallRec, b: CallRec) {
    a.index == b.index && a.depth == b.depth && a.parentIndex == b.parentIndex && a.beginOrdinal == b.beginOrdinal
  }

  lemma LeafPlaced(h: Holder, e: TxEvent, env: Env, floor: nat)
    requires HolderPlaced(h, floor, env.ord)
    ensures var h', env' := LeafOn(h, e, env), After(h, e, env);
      && HolderPlaced(h', floor, env'.ord) && env.ord <= env'.ord && env'.index == env.index
      && (h.Inside? ==> SameFrame(h.c, h'.c))
  {
    hide ListsPlaced, IgnoredAfterSuicide, IsNoOp;
    if Records(e, AsTop(h)) {
      var r := RecordOf(e, env.ord + 1, env.logIndex);
      match h
      case Inside(c) => AddPlaced(c.lists, r, FloorOf(c), env.ord, c.beginOrdinal);
      case Outside(d) => AddPlaced(d, r, floor, env.ord, 0);
    }
  }

  lemma {:induction false} LeavesPlaced(h: Holder, es: seq<TxEvent>, env: Env, floor: nat)
    requires HolderPlaced(h, floor, env.ord)
    ensures var r := LeavesOn(h, es, env);
      && HolderPlaced(r.0, floor, r.1.ord) && env.ord <= r.1.ord && r.1.index == env.index
      && (h.Inside? ==> SameFrame(h.c, r.0.c))
    decreases |es|
  {
    hide HolderPlaced, LeafOn, After;
    if |es| > 0 {
      LeafPlaced(h, es[0], env, floor);
      LeavesPlaced(LeafOn(h, es[0], env), es[1..], After(h, es[0], env), floor);
    }
  }

  /** Laws of a call, the calls inside it and the calls after it make laws of the whole. */
  lemma JoinLaws(c: CallRec, kids: seq<CallRec>, rest: seq<CallRec>, base: nat, parent: nat, lo: nat, mid: nat, hi: nat)
    requires parent <= base && lo + 1 <= mid && c.index == base + 1 && c.parentIndex == parent
    requires c.beginOrdinal == lo + 1 && c.endOrdinal == mid + 1 && CallPlaced(c)
    requires Laws(kids, base + 1, base + 1, lo + 1, mid)
    requires Laws(rest, base + 1 + |kids|, parent, mid + 1, hi)
    ensures Laws([c] + kids + rest, base, parent, lo, hi)
  {
    hide CallPlaced, BeginLaw;
    var all := [c] + kids + rest;
    forall i | 0 <= i < |all| ensures CallLaw(all, base, parent, lo, hi, i) {
      JoinedCall(c, kids, rest, base, parent, lo, mid, hi, i);
    }
    forall i, j | 0 <= i < j < |all| && all[i].parentIndex == all[j].parentIndex
      ensures all[i].endOrdinal < all[j].beginOrdinal
    {
      JoinedSiblings(c, kids, rest, base, parent, lo, mid, hi, i, j);
    }
    assert BeginLaw(all) by { JoinedBegins(c, kids, rest, base, parent, lo, mid, hi); }
  }

  lemma JoinedBegins(c: CallRec, kids: seq<CallRec>, rest: seq<CallRec>, base: nat, parent: nat, lo: nat, mid: nat,
                     hi: nat)
    requires c.beginOrdinal == lo + 1
    requires Laws(kids, base + 1, base + 1, lo + 1, mid)
    requires Laws(rest, base + 1 + |kids|, parent, mid + 1, hi)
    ensures BeginLaw([c] + kids + rest)
  {
    hide SiblingLaw, ListsPlaced;
    var all, n := [c] + kids + rest, |kids|;
    forall i, j | 0 <= i < j < |all| ensures all[i].beginOrdinal < all[j].beginOrdinal {
      assert 1 <= i <= n ==> CallLaw(kids, base + 1, base + 1, lo + 1, mid, i - 1);
      assert 1 <= j <= n ==> CallLaw(kids, base + 1, base + 1, lo + 1, mid, j - 1);
      assert j > n ==> CallLaw(rest, base + 1 + n, parent, mid + 1, hi, j - 1 - n);
    }
  }

  lemma JoinedCall(c: CallRec, kids: seq<CallRec>, rest: seq<CallRec>, base: nat, parent: nat, lo: nat, mid: nat,
                   hi: nat, i: nat)
    requires parent <= base && lo + 1 <= mid && c.index == base + 1 && c.parentIndex == parent
    requires c.beginOrdinal == lo + 1 && c.endOrdinal == mid + 1 && CallPlaced(c)
    requires Laws(kids, base + 1, base + 1, lo + 1, mid)
    requires Laws(rest, base + 1 + |kids|, parent, mid + 1, hi)
    requires i < 1 + |kids| + |rest|
    ensures CallLaw([c] + kids + rest, base, parent, lo, hi, i)
  {
    hide CallPlaced, SiblingLaw, BeginLaw;
    var all := [c] + kids + rest;
    if i == 0 {
    } else if i <= |kids| {
      assert all[i] == kids[i - 1] && CallLaw(kids, base + 1, base + 1, lo + 1, mid, i - 1);
      if all[i].parentIndex > base + 1 {
        assert all[all[i].parentIndex - base - 1] == kids[all[i].parentIndex - (base + 1) - 1];
      }
    } else {
      var k := i - 1 - |kids|;
      assert all[i] == rest[k] && CallLaw(rest, base + 1 + |kids|, parent, mid + 1, hi, k);
      if all[i].parentIndex != parent {
        assert all[all[i].parentIndex - base - 1] == rest[all[i].parentIndex - (base + 1 + |kids|) - 1];
      }
    }
  }

  lemma JoinedSiblings(c: CallRec, kids: seq<CallRec>, rest: seq<CallRec>, base: nat, parent: nat, lo: nat, mid: nat,
                       hi: nat, i: nat, j: nat)
    requires parent <= base && lo + 1 <= mid && c.index == base + 1 && c.parentIndex == parent
    requires c.beginOrdinal == lo + 1 && c.endOrdinal == mid + 1
    requires Laws(kids, base + 1, base + 1, lo + 1, mid)
    requires Laws(rest, base + 1 + |kids|, parent, mid + 1, hi)
    requires var all := [c] + kids + rest; i < j < |all| && all[i].parentIndex == all[j].parentIndex
    ensures var all := [c] + kids + rest; all[i].endOrdinal < all[j].beginOrdinal
  {
    hide CallPlaced, BeginLaw;
    var n := |kids|;
    assert 1 <= i <= n ==> CallLaw(kids, base + 1, base + 1, lo + 1, mid, i - 1);
    assert 1 <= j <= n ==> CallLaw(kids, base + 1, base + 1, lo + 1, mid, j - 1);
    assert j > n ==> CallLaw(rest, base + 1 + n, parent, mid + 1, hi, j - 1 - n);
    if j > n && i > n {
      assert rest[i - 1 - n].parentIndex == rest[j - 1 - n].parentIndex;
    } else if 1 <= i && j <= n {
      assert kids[i - 1].parentIndex == kids[j - 1].parentIndex;
    }
  }

  lemma BagsJoin(c: CallRec, a: seq<CallRec>, a': seq<CallRec>, b: seq<CallRec>, b': seq<CallRec>)
    requires multiset(a) == multiset(a') && multiset(b) == multiset(b')
    ensures multiset([c] + a + b) == multiset(a' + [c] + b')
  {
  }

  /** The traced calls of any forest obey the laws. */
  lemma {:induction false} BuildObeys(ctx: Ctx, reader: bool, f: Items, depth: nat, h: Holder, env: Env, floor: nat)
    requires h.Inside? == (depth > 0) && HolderPlaced(h, floor, env.ord) && ParentOf(h) <= env.index
    ensures BuiltLaws(Build(ctx, reader, f, depth, h, env), h, env, floor)
    decreases f
  {
    hide ListsPlaced, LeafOn, After, LeavesOn, Child, Closed, CallPlaced, SiblingLaw, BeginLaw, CallLaw;
    match f
    case Done =>
      NoSiblings();
      if h.Inside? {
        assert HolderPlaced(h, 0, env.ord);
      }
    case Leaf(e, rest) =>
      LeafPlaced(h, e, env, floor);
      BuildObeys(ctx, reader, rest, depth, LeafOn(h, e, env), After(h, e, env), floor);
      LowerStart(Build(ctx, reader, rest, depth, LeafOn(h, e, env), After(h, e, env)), LeafOn(h, e, env),
                 After(h, e, env), h, env, floor);
    case Destruct(_, _, leaves, _, rest) =>
      LeavesPlaced(h, leaves, env, floor);
      var r := LeavesOn(h, leaves, env);
      BuildObeys(ctx, reader, rest, depth, r.0, r.1, floor);
      LowerStart(Build(ctx, reader, rest, depth, r.0, r.1), r.0, r.1, h, env, floor);
    case Sub(frame, inner, exit, rest) =>
      var child, env1 := Child(ctx, reader, frame, depth, h, env), env.(ord := env.ord + 1, index := env.index + 1);
      ChildPlaced(ctx, reader, frame, depth, h, env, floor);
      BuildObeys(ctx, reader, inner, depth + 1, Inside(child), env1, 0);
      var i := Build(ctx, reader, inner, depth + 1, Inside(child), env1);
      var h2, env2 := if h.Outside? then Outside(NO_CHANGES) else h, i.env.(ord := i.env.ord + 1);
      ReopenedPlaced(h, floor, env.ord, env2.ord);
      BuildObeys(ctx, reader, rest, depth, h2, env2, env2.ord);
      CallObeys(ctx, reader, f, depth, h, env, floor, child, i, h2, Build(ctx, reader, rest, depth, h2, env2));
  }

  lemma NoSiblings()
    ensures SiblingLaw([]) && BeginLaw([])
  {
  }

  /** Laws from a later start are laws from an earlier one. */
  lemma LowerStart(b: Built, h1: Holder, env1: Env, h: Holder, env: Env, floor: nat)
    requires BuiltLaws(b, h1, env1, floor) && env.ord <= env1.ord && env.index == env1.index
    requires h1.Inside? == h.Inside? == b.h.Inside? && (h.Inside? ==> SameFrame(h.c, h1.c))
    ensures BuiltLaws(b, h, env, floor)
  {
    hide CallPlaced, LeftoverLaw, SiblingLaw, BeginLaw;
    forall i | 0 <= i < |b.pre| ensures CallLaw(b.pre, env.index, ParentOf(h), env.ord, b.env.ord, i) {
      assert CallLaw(b.pre, env1.index, ParentOf(h1), env1.ord, b.env.ord, i);
    }
  }

  lemma ChildPlaced(ctx: Ctx, reader: bool, frame: Frame, depth: nat, h: Holder, env: Env, floor: nat)
    requires h.Inside? == (depth > 0) && HolderPlaced(h, floor, env.ord)
    ensures var c := Child(ctx, reader, frame, depth, h, env);
      && HolderPlaced(Inside(c), 0, env.ord + 1)
      && c.index == env.index + 1 && c.depth == depth && c.parentIndex == ParentOf(h) && c.beginOrdinal == env.ord + 1
  {
    hide ListsPlaced, NewCall;
    var c := Child(ctx, reader, frame, depth, h, env);
    NewCallFields(frame, DelegationOf(ctx, reader, frame), env.ord + 1, if h.Outside? then h.d else NO_CHANGES);
    if h.Outside? {
      ListsPlacedWeaker(h.d, floor, env.ord, 0, 0, env.ord + 1, env.ord + 1);
    } else {
      NothingPlaced(c.beginOrdinal, env.ord + 1, c.beginOrdinal);
    }
  }

  lemma NewCallFields(frame: Frame, delegatesTo: Option<Bytes>, begin: nat, lists: Lists)
    ensures NewCall(frame, delegatesTo, begin, lists).lists == lists
            && NewCall(frame, delegatesTo, begin, lists).beginOrdinal == begin
  {
  }

  lemma ReopenedPlaced(h: Holder, floor: nat, ord: nat, later: nat)
    requires HolderPlaced(h, floor, ord) && ord <= later
    ensures HolderPlaced(if h.Outside? then Outside(NO_CHANGES) else h, later, later)
  {
    hide ListsPlaced;
    if h.Inside? {
      ListsPlacedWeaker(h.c.lists, FloorOf(h.c), ord, h.c.beginOrdinal, FloorOf(h.c), later, h.c.beginOrdinal);
    } else {
      NothingPlaced(later, later, 0);
    }
  }

  lemma ClosedFields(c: CallRec, exit: Exit, end: nat)
    ensures var d := Closed(c, exit, end); SameFrame(c, d) && d.endOrdinal == end && d.lists == c.lists
  {
  }

  lemma CallObeys(ctx: Ctx, reader: bool, f: Items, depth: nat, h: Holder, env: Env, floor: nat,
                  child: CallRec, i: Built, h2: Holder, r: Built)
    requires f.Sub? && h.Inside? == (depth > 0) && ParentOf(h) <= env.index
    requires child == Child(ctx, reader, f.frame, depth, h, env)
    requires child.index == env.index + 1 && child.depth == depth && child.parentIndex == ParentOf(h)
             && child.beginOrdinal == env.ord + 1
    requires h2 == if h.Outside? then Outside(NO_CHANGES) else h
    requires i.h.Inside? && r.h.Inside? == h.Inside?
    requires i == Build(ctx, reader, f.inner, depth + 1, Inside(child),
                        env.(ord := env.ord + 1, index := env.index + 1))
    requires r == Build(ctx, reader, f.rest, depth, h2, i.env.(ord := i.env.ord + 1))
    requires BuiltLaws(i, Inside(child), env.(ord := env.ord + 1, index := env.index + 1), 0)
    requires BuiltLaws(r, h2, i.env.(ord := i.env.ord + 1), i.env.ord + 1)
    ensures BuiltLaws(Build(ctx, reader, f, depth, h, env), h, env, floor)
  {
    hide ListsPlaced, Build, Child, Closed, CallPlaced, SiblingLaw, CallLaw, Laws;
    CallBuilt(ctx, reader, f, depth, h, env);
    var closed := Closed(i.h.c, f.exit, i.env.ord + 1);
    ClosedFields(i.h.c, f.exit, i.env.ord + 1);
    assert CallPlaced(closed) by { ClosedPlaced(closed, i.env.ord); }
    JoinLaws(closed, i.pre, r.pre, env.index, ParentOf(h), env.ord, i.env.ord, r.env.ord);
    BagsJoin(closed, i.pre, i.post, r.pre, r.post);
    var b := Built(r.h, [closed] + i.pre + r.pre, i.post + [closed] + r.post, r.env);
    if h.Outside? {
      LeftoverAfterCall(closed, i.pre, r, env, b, ParentOf(h), i.env.ord);
    }
  }

  lemma ClosedPlaced(c: CallRec, ord: nat)
    requires c.beginOrdinal <= ord && c.endOrdinal == ord + 1 && ListsPlaced(c.lists, FloorOf(c), ord, c.beginOrdinal)
    ensures CallPlaced(c)
  {
  }

  lemma LeftoverAfterCall(c: CallRec, kids: seq<CallRec>, r: Built, env: Env, b: Built, parent: nat, mid: nat)
    requires r.h.Outside? && b.h == r.h && b.env == r.env && b.pre == [c] + kids + r.pre
    requires c.endOrdinal == mid + 1 && mid + 1 <= r.env.ord
    requires LeftoverLaw(r, mid + 1)
    requires Laws(b.pre, env.index, parent, env.ord, r.env.ord)
             && Laws(kids, env.index + 1, env.index + 1, env.ord + 1, mid)
    requires Laws(r.pre, env.index + 1 + |kids|, parent, mid + 1, r.env.ord)
    ensures LeftoverLaw(b, 0)
  {
    hide ListsPlaced, SiblingLaw, BeginLaw;
    var d, hi := r.h.d, r.env.ord;
    forall k | 0 <= k < |b.pre| ensures ListsPlaced(d, b.pre[k].endOrdinal, hi, 0) {
      if k > |kids| {
        assert b.pre[k] == r.pre[k - 1 - |kids|];
      } else {
        assert k == 0 || CallLaw(kids, env.index + 1, env.index + 1, env.ord + 1, mid, k - 1);
        assert b.pre[k].endOrdinal <= mid + 1;
        if |r.pre| == 0 {
          ListsPlacedWeaker(d, mid + 1, hi, 0, b.pre[k].endOrdinal, hi, 0);
        } else {
          assert CallLaw(r.pre, env.index + 1 + |kids|, parent, mid + 1, hi, 0);
          assert r.pre[0].endOrdinal > mid + 1;
          ListsPlacedWeaker(d, r.pre[0].endOrdinal, hi, 0, b.pre[k].endOrdinal, hi, 0);
        }
      }
    }
    if |r.pre| == 0 {
      ListsPlacedWeaker(d, mid + 1, hi, 0, 0, hi, 0);
    }
  }
}
