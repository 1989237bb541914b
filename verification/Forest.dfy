/** Call forests. A well-formed transaction body is the flattening of a forest of calls; tracing it
    rebuilds the forest. `Items` is a list of what happens at one level: leaf events, skipped
    SELFDESTRUCT pairs, and calls, each with the items inside it. */
module Forest {
  import opened Bytes
  import opened Wrappers
  import opened Model
  import opened Machine

  datatype Items =
    | Done
    | Leaf(e: TxEvent, rest: Items)
    | Destruct(depth: int, frame: Frame, leaves: seq<TxEvent>, exit: Exit, rest: Items)
    | Sub(frame: Frame, inner: Items, exit: Exit, rest: Items)

  /** Only leaves appear as leaves, preimages are reported inside a call, and call types are known. */
  predicate WellFormed(f: Items, inside: bool) {
    match f
    case Done => true
    case Leaf(e, rest) => LeafAllowed(e, inside) && WellFormed(rest, inside)
    case Destruct(_, frame, leaves, _, rest) =>
      frame.typ == SELFDESTRUCT && (forall i :: 0 <= i < |leaves| ==> LeafAllowed(leaves[i], inside))
      && WellFormed(rest, inside)
    case Sub(frame, inner, _, rest) =>
      CallAllowed(frame) && WellFormed(inner, true) && WellFormed(rest, inside)
  }

  predicate LeafAllowed(e: TxEvent, inside: bool) { IsLeaf(e) && (e.Keccak? ==> inside) }

  /** CREATE, CALL, CALLCODE, DELEGATECALL, CREATE2 or STATICCALL. */
  predicate CallAllowed(frame: Frame) { frame.typ in {0xf0, 0xf1, 0xf2, 0xf4, 0xf5, 0xfa} }

  /** The hook calls made for `f` when `depth` calls are open. */
  function Flatten(f: Items, depth: nat): seq<TxEvent> {
    match f
    case Done => []
    case Leaf(e, rest) => [e] + Flatten(rest, depth)
    case Destruct(d, frame, leaves, exit, rest) => [Enter(d, frame)] + (leaves + ([Leave(exit)] + Flatten(rest, depth)))
    case Sub(frame, inner, exit, rest) =>
      [Enter(depth, frame)] + (Flatten(inner, depth + 1) + ([Leave(exit)] + Flatten(rest, depth)))
  }

  // ---------------------------------------------------------------- tracing a forest, by recursion on it

  /** The counters threaded through the trace. */
  datatype Env = Env(ord: nat, index: nat, logIndex: nat, preimages: seq<Recorded>)

  /** Where changes at the current level go: the open call, or the deferred state outside any call. */
  datatype Holder = Inside(c: CallRec) | Outside(d: Lists)

  function AsTop(h: Holder): Option<CallRec> { if h.Inside? then Some(h.c) else None }

  function LeafOn(h: Holder, e: TxEvent, env: Env): (h': Holder)
    ensures h'.Inside? == h.Inside?
  {
    match h
    case Inside(c) => Inside(LeafOnCall(c, e, env.ord, env.logIndex))
    case Outside(d) => Outside(LeafOutside(d, e, env.ord, env.logIndex))
  }

  function After(h: Holder, e: TxEvent, env: Env): Env {
    Env(NextOrdinal(e, AsTop(h), env.ord), env.index, NextLogIndex(e, env.logIndex),
        NextPreimages(e, AsTop(h), env.preimages))
  }

  function LeavesOn(h: Holder, es: seq<TxEvent>, env: Env): (r: (Holder, Env))
    ensures r.0.Inside? == h.Inside?
    decreases |es|
  {
    if |es| == 0 then (h, env) else LeavesOn(LeafOn(h, es[0], env), es[1..], After(h, es[0], env))
  }

  /** The trace of a forest: the holder afterwards, the closed calls in preorder and in closing order,
      and the counters afterwards. */
  datatype Built = Built(h: Holder, pre: seq<CallRec>, post: seq<CallRec>, env: Env)

  function Child(ctx: Ctx, reader: bool, frame: Frame, depth: nat, h: Holder, env: Env): CallRec {
    Numbered(NewCall(frame, DelegationOf(ctx, reader, frame), env.ord + 1, if h.Outside? then h.d else NO_CHANGES),
             env.index + 1, depth, if h.Inside? then h.c.index else 0)
  }

  function Build(ctx: Ctx, reader: bool, f: Items, depth: nat, h: Holder, env: Env): (b: Built)
    ensures b.h.Inside? == h.Inside?
    decreases f
  {
    match f
    case Done => Built(h, [], [], env)
    case Leaf(e, rest) => Build(ctx, reader, rest, depth, LeafOn(h, e, env), After(h, e, env))
    case Destruct(_, _, leaves, _, rest) =>
      var r := LeavesOn(h, leaves, env);
      Build(ctx, reader, rest, depth, r.0, r.1)
    case Sub(frame, inner, exit, rest) =>
      var i := Build(ctx, reader, inner, depth + 1, Inside(Child(ctx, reader, frame, depth, h, env)),
                     env.(ord := env.ord + 1, index := env.index + 1));
      var closed := Closed(i.h.c, exit, i.env.ord + 1);
      var r := Build(ctx, reader, rest, depth, if h.Outside? then Outside(NO_CHANGES) else h,
                     i.env.(ord := i.env.ord + 1));
      Built(r.h, [closed] + i.pre + r.pre, i.post + [closed] + r.post, r.env)
  }

  // ---------------------------------------------------------------- the machine computes that trace

  function HolderOf(w: Work): Holder {
    if |w.stack| > 0 then Inside(w.stack[|w.stack| - 1]) else Outside(w.deferred)
  }

  function EnvOf(w: Work, ord: nat): Env { Env(ord, w.index, w.logIndex, w.preimages) }

  function WithHolder(w: Work, h: Holder): Work
    requires h.Inside? == (|w.stack| > 0)
  {
    if h.Inside? then w.(stack := ReplaceTop(w.stack, h.c)) else w.(deferred := h.d)
  }

  function WithEnv(w: Work, env: Env): Work {
    w.(index := env.index, logIndex := env.logIndex, preimages := env.preimages)
  }

  function AddClosed(w: Work, calls: seq<CallRec>): Work
    requires w.trx.Some?
  {
    w.(trx := Some(w.trx.value.(calls := w.trx.value.calls + calls)))
  }

  function WorkAfter(w: Work, b: Built): Work
    requires w.trx.Some? && b.h.Inside? == (|w.stack| > 0)
  {
    AddClosed(WithEnv(WithHolder(w, b.h), b.env), b.post)
  }

  lemma LeafStep(ctx: Ctx, w: Work, ord: nat, e: TxEvent)
    requires ctx.inBlock && w.trx.Some? && LeafAllowed(e, |w.stack| > 0)
    ensures var h, env := HolderOf(w), EnvOf(w, ord);
      StepWork(ctx, w, ord, e)
        == Ok((WithEnv(WithHolder(w, LeafOn(h, e, env)), After(h, e, env)), After(h, e, env).ord))
  {
  }

  lemma HolderKept(w: Work, h: Holder, env: Env, ord: nat)
    requires h.Inside? == (|w.stack| > 0)
    ensures var w1 := WithEnv(WithHolder(w, h), env);
      HolderOf(w1) == h && EnvOf(w1, env.ord) == env && |w1.stack| == |w.stack| && w1.trx == w.trx
      && w1.reader == w.reader
  {
  }

  lemma HolderTwice(w: Work, h: Holder, env: Env, h': Holder, env': Env)
    requires h.Inside? == h'.Inside? == (|w.stack| > 0)
    ensures WithEnv(WithHolder(WithEnv(WithHolder(w, h), env), h'), env') == WithEnv(WithHolder(w, h'), env')
  {
  }

  lemma HolderSame(w: Work, ord: nat)
    ensures WithEnv(WithHolder(w, HolderOf(w)), EnvOf(w, ord)) == w
  {
    if |w.stack| > 0 {
      assert ReplaceTop(w.stack, w.stack[|w.stack| - 1]) == w.stack;
    }
  }

  lemma {:induction false} LeavesRun(ctx: Ctx, w: Work, ord: nat, es: seq<TxEvent>)
    requires ctx.inBlock && w.trx.Some? && forall i :: 0 <= i < |es| ==> LeafAllowed(es[i], |w.stack| > 0)
    ensures var r := LeavesOn(HolderOf(w), es, EnvOf(w, ord));
      RunWork(ctx, w, ord, es) == Ok((WithEnv(WithHolder(w, r.0), r.1), r.1.ord))
    decreases |es|
  {
    hide StepWork, LeafOn, After, WithEnv, WithHolder;
    var h, env := HolderOf(w), EnvOf(w, ord);
    HolderSame(w, ord);
    if |es| > 0 {
      LeafStep(ctx, w, ord, es[0]);
      var h1, env1 := LeafOn(h, es[0], env), After(h, es[0], env);
      HolderKept(w, h1, env1, ord);
      var r := LeavesOn(h, es, env);
      HolderTwice(w, h1, env1, r.0, r.1);
      LeavesRun(ctx, WithEnv(WithHolder(w, h1), env1), env1.ord, es[1..]);
    }
  }

  /** Two stretches in a row, the second traced from where the first stopped. */
  lemma AfterTwice(w: Work, h: Holder, env: Env, b: Built)
    requires w.trx.Some? && h.Inside? == b.h.Inside? == (|w.stack| > 0)
    ensures WorkAfter(WithEnv(WithHolder(w, h), env), b) == WorkAfter(w, b)
  {
    HolderTwice(w, h, env, b.h, b.env);
  }

  /** Flattening a well-formed forest and running the machine on it traces the forest. */
  lemma {:induction false} FlattenRuns(ctx: Ctx, w: Work, ord: nat, f: Items)
    requires ctx.inBlock && w.trx.Some? && !w.suicided && WellFormed(f, |w.stack| > 0)
    ensures var b := Build(ctx, w.reader, f, |w.stack|, HolderOf(w), EnvOf(w, ord));
      RunWork(ctx, w, ord, Flatten(f, |w.stack|)) == Ok((WorkAfter(w, b), b.env.ord))
    decreases f, 2
  {
    hide StepWork, LeafOn, After, LeavesOn;
    var h, env := HolderOf(w), EnvOf(w, ord);
    match f
    case Done =>
      HolderSame(w, ord);
      assert w.trx.value.calls + [] == w.trx.value.calls;
    case Leaf(e, rest) =>
      LeafStep(ctx, w, ord, e);
      var h1, env1 := LeafOn(h, e, env), After(h, e, env);
      HolderKept(w, h1, env1, ord);
      var w1 := WithEnv(WithHolder(w, h1), env1);
      FlattenRuns(ctx, w1, env1.ord, rest);
      AfterTwice(w, h1, env1, Build(ctx, w.reader, rest, |w.stack|, h1, env1));
    case Destruct(_, _, _, _, _) =>
      DestructRuns(ctx, w, ord, f);
    case Sub(_, _, _, _) =>
      SubRuns(ctx, w, ord, f);
  }

  lemma {:induction false} DestructRuns(ctx: Ctx, w: Work, ord: nat, f: Items)
    requires ctx.inBlock && w.trx.Some? && !w.suicided && WellFormed(f, |w.stack| > 0) && f.Destruct?
    ensures var b := Build(ctx, w.reader, f, |w.stack|, HolderOf(w), EnvOf(w, ord));
      RunWork(ctx, w, ord, Flatten(f, |w.stack|)) == Ok((WorkAfter(w, b), b.env.ord))
    decreases f, 0
  {
    hide LeafOn, After, LeavesOn;
    var h, env := HolderOf(w), EnvOf(w, ord);
    var r := LeavesOn(h, f.leaves, env);
    var tail := [Leave(f.exit)] + Flatten(f.rest, |w.stack|);
    var w1 := w.(suicided := true);
    assert StepWork(ctx, w, ord, Enter(f.depth, f.frame)) == Ok((w1, ord));
    assert Flatten(f, |w.stack|)[1..] == f.leaves + tail;
    LeavesRun(ctx, w1, ord, f.leaves);
    RunWorkConcat(ctx, w1, ord, f.leaves, tail);
    var w2 := WithEnv(WithHolder(w1, r.0), r.1);
    var w3 := WithEnv(WithHolder(w, r.0), r.1);
    assert StepWork(ctx, w2, r.1.ord, tail[0]) == Ok((w3, r.1.ord));
    assert tail[1..] == Flatten(f.rest, |w.stack|);
    HolderKept(w, r.0, r.1, ord);
    FlattenRuns(ctx, w3, r.1.ord, f.rest);
    AfterTwice(w, r.0, r.1, Build(ctx, w.reader, f.rest, |w.stack|, r.0, r.1));
  }

  /** `w` back at the level of holder `h`, with `calls` closed since. */
  function Reopened(w: Work, h: Holder, env: Env, calls: seq<CallRec>): Work
    requires w.trx.Some? && h.Inside? == (|w.stack| > 0)
  {
    AddClosed(WithEnv(WithHolder(w, h), env), calls)
  }

  /** Entering a call opens the child the forest trace starts with. */
  lemma EnterRuns(ctx: Ctx, w: Work, ord: nat, frame: Frame)
    requires CallAllowed(frame)
    ensures var h, env := HolderOf(w), EnvOf(w, ord);
      StepWork(ctx, w, ord, Enter(|w.stack|, frame))
      == Ok((w.(stack := w.stack + [Child(ctx, w.reader, frame, |w.stack|, h, env)], index := w.index + 1,
                deferred := if |w.stack| == 0 then NO_CHANGES else w.deferred), ord + 1))
  {
  }

  /** `w` with `child` opened. */
  function Opened(w: Work, child: CallRec): Work {
    w.(stack := w.stack + [child], index := w.index + 1, deferred := if |w.stack| == 0 then NO_CHANGES else w.deferred)
  }

  lemma OpenedKept(w: Work, ord: nat, child: CallRec)
    ensures var w1 := Opened(w, child);
      && HolderOf(w1) == Inside(child) && EnvOf(w1, ord + 1) == EnvOf(w, ord).(ord := ord + 1, index := w.index + 1)
      && |w1.stack| == |w.stack| + 1 && w1.trx == w.trx && w1.reader == w.reader && w1.suicided == w.suicided
  {
  }

  /** Entering a call and running what is inside it. */
  lemma {:induction false} InnerRuns(ctx: Ctx, w: Work, ord: nat, f: Items, child: CallRec)
    requires ctx.inBlock && w.trx.Some? && !w.suicided && f.Sub? && WellFormed(f, |w.stack| > 0)
    requires child == Child(ctx, w.reader, f.frame, |w.stack|, HolderOf(w), EnvOf(w, ord))
    ensures var i := Build(ctx, w.reader, f.inner, |w.stack| + 1, Inside(child),
                           EnvOf(w, ord).(ord := ord + 1, index := w.index + 1));
      RunWork(ctx, w, ord, Flatten(f, |w.stack|))
      == RunWork(ctx, WorkAfter(Opened(w, child), i), i.env.ord, [Leave(f.exit)] + Flatten(f.rest, |w.stack|))
    decreases f, 0
  {
    hide StepWork, LeafOn, After, LeavesOn, Child, Closed, WorkAfter;
    var n := |w.stack|;
    var w1 := Opened(w, child);
    EnterRuns(ctx, w, ord, f.frame);
    OpenedKept(w, ord, child);
    var tail := [Leave(f.exit)] + Flatten(f.rest, n);
    assert Flatten(f, n)[1..] == Flatten(f.inner, n + 1) + tail;
    FlattenRuns(ctx, w1, ord + 1, f.inner);
    RunWorkConcat(ctx, w1, ord + 1, Flatten(f.inner, n + 1), tail);
  }

  /** The trace of a call followed by the rest of its level. */
  lemma CallBuilt(ctx: Ctx, reader: bool, f: Items, depth: nat, h: Holder, env: Env)
    requires f.Sub?
    ensures var i := Build(ctx, reader, f.inner, depth + 1, Inside(Child(ctx, reader, f.frame, depth, h, env)),
                           env.(ord := env.ord + 1, index := env.index + 1));
      var closed, h2, env2 := Closed(i.h.c, f.exit, i.env.ord + 1), if h.Outside? then Outside(NO_CHANGES) else h,
                              i.env.(ord := i.env.ord + 1);
      var r := Build(ctx, reader, f.rest, depth, h2, env2);
      Build(ctx, reader, f, depth, h, env) == Built(r.h, [closed] + i.pre + r.pre, i.post + [closed] + r.post, r.env)
  {
    hide Child, Closed, LeafOn, After, LeavesOn;
  }

  lemma RunOne(ctx: Ctx, w: Work, ord: nat, e: TxEvent, es: seq<TxEvent>, r: (Work, nat))
    requires StepWork(ctx, w, ord, e) == Ok(r)
    ensures RunWork(ctx, w, ord, [e] + es) == RunWork(ctx, r.0, r.1, es)
  {
    assert ([e] + es)[1..] == es;
  }

  lemma {:induction false} SubRuns(ctx: Ctx, w: Work, ord: nat, f: Items)
    requires ctx.inBlock && w.trx.Some? && !w.suicided && WellFormed(f, |w.stack| > 0) && f.Sub?
    ensures var b := Build(ctx, w.reader, f, |w.stack|, HolderOf(w), EnvOf(w, ord));
      RunWork(ctx, w, ord, Flatten(f, |w.stack|)) == Ok((WorkAfter(w, b), b.env.ord))
    decreases f, 1
  {
    hide StepWork, RunWork, Build, LeafOn, After, LeavesOn, Child, Closed, WorkAfter, Reopened, Opened;
    var h, env, n := HolderOf(w), EnvOf(w, ord), |w.stack|;
    var child := Child(ctx, w.reader, f.frame, n, h, env);
    InnerRuns(ctx, w, ord, f, child);
    var i := Build(ctx, w.reader, f.inner, n + 1, Inside(child), env.(ord := ord + 1, index := w.index + 1));
    var closed := Closed(i.h.c, f.exit, i.env.ord + 1);
    var h2 := if h.Outside? then Outside(NO_CHANGES) else h;
    var env2 := i.env.(ord := i.env.ord + 1);
    var w2 := Reopened(w, h2, env2, i.post + [closed]);
    OpenedKept(w, ord, child);
    LeaveRuns(ctx, w, child, i, f.exit);
    RunOne(ctx, WorkAfter(Opened(w, child), i), i.env.ord, Leave(f.exit), Flatten(f.rest, n), (w2, i.env.ord + 1));
    ClosedKept(w, h2, env2, i.post + [closed]);
    CallBuilt(ctx, w.reader, f, n, h, env);
    FlattenRuns(ctx, w2, env2.ord, f.rest);
    var r := Build(ctx, w.reader, f.rest, n, h2, env2);
    RestAfter(w, h2, env2, i.post + [closed], r, [closed] + i.pre + r.pre);
  }

  lemma LeaveRuns(ctx: Ctx, w: Work, child: CallRec, i: Built, exit: Exit)
    requires ctx.inBlock && w.trx.Some? && !w.suicided && i.h.Inside?
    ensures var closed := Closed(i.h.c, exit, i.env.ord + 1);
      var h2 := if |w.stack| == 0 then Outside(NO_CHANGES) else HolderOf(w);
      var w2 := Reopened(w, h2, i.env.(ord := i.env.ord + 1), i.post + [closed]);
      StepWork(ctx, WorkAfter(Opened(w, child), i), i.env.ord, Leave(exit)) == Ok((w2, i.env.ord + 1))
  {
    var s := WorkAfter(Opened(w, child), i);
    assert s.stack[..|s.stack| - 1] == w.stack;
    if |w.stack| > 0 {
      assert ReplaceTop(w.stack, w.stack[|w.stack| - 1]) == w.stack;
    }
    var closed := Closed(i.h.c, exit, i.env.ord + 1);
    assert (w.trx.value.calls + i.post) + [closed] == w.trx.value.calls + (i.post + [closed]);
  }

  lemma ClosedKept(w: Work, h2: Holder, env2: Env, post: seq<CallRec>)
    requires w.trx.Some? && h2.Inside? == (|w.stack| > 0)
    ensures var w2 := Reopened(w, h2, env2, post);
      && HolderOf(w2) == h2 && EnvOf(w2, env2.ord) == env2 && |w2.stack| == |w.stack|
      && w2.trx.Some? && w2.reader == w.reader && w2.suicided == w.suicided
  {
  }

  lemma RestAfter(w: Work, h2: Holder, env2: Env, post: seq<CallRec>, r: Built, pre: seq<CallRec>)
    requires w.trx.Some? && h2.Inside? == r.h.Inside? == (|w.stack| > 0)
    ensures |Reopened(w, h2, env2, post).stack| == |w.stack|
    ensures WorkAfter(Reopened(w, h2, env2, post), r) == WorkAfter(w, Built(r.h, pre, post + r.post, r.env))
  {
    assert (w.trx.value.calls + post) + r.post == w.trx.value.calls + (post + r.post);
    HolderTwice(w, h2, env2, r.h, r.env);
  }
}
