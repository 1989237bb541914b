/** What a system call files in the block, in terms of its hook calls alone (tracer.go:1739-1825). */
module SystemCalls {
  import opened Bytes
  import opened Wrappers
  import opened Model
  import opened Sorting
  import opened Completion
  import opened Machine
  import opened Streams
  import opened Interruption
  import opened Forest
  import opened Outline
  import opened Reading
  import opened Told
  import opened Outcome
  import Blocks
  import LeftPreimages
  import Nesting
  import Ranges
  import RoundTrip

  /** A coordinator in a block, between transactions or inside one, outside any system call. */
  ghost predicate Ready(s: State) { Idle(s) || InTransaction(s) }

  function SystemCtx(s: State): Ctx { Ctx(true, s.prague, true, s.genesis) }

  ghost predicate SystemCallIs(cfg: Config, s: State, body: seq<TxEvent>) {
    var r, inner := Run(cfg, s, SystemCall(body)), RunWork(SystemCtx(s), SYSTEM_WORK, s.ordinal, body);
    && (r.Ok? <==> inner.Ok? && !HasCallOnlyChanges(inner.value.0.deferred))
    && (r.Ok? ==>
      && inner.value.0.trx.Some?
      && r.value == s.(ordinal := inner.value.1,
                       block := Some(AddSystemCalls(s.block.value, Attach(inner.value.0.trx.value.calls,
                                                                          inner.value.0.preimages)))))
  }

  /** The same for a system call between transactions. */
  lemma IdleSystemCall(cfg: Config, s: State, body: seq<TxEvent>)
    requires Idle(s)
    ensures SystemCallIs(cfg, s, body)
  {
    hide RunWork, Attach, AddSystemCalls;
    var start, middle, end := [SysStart], Txs(body), [SysEnd];
    var s1 := s.(work := SYSTEM_WORK, inSystemCall := true);
    Blocks.RunSingle(cfg, s, SysStart);
    RunConcat(cfg, s, start, middle + end);
    assert start + (middle + end) == SystemCall(body);
    RunConcat(cfg, s1, middle, end);
    RunTxs(cfg, s1, body);
    var inner := RunWork(CtxOf(s1), SYSTEM_WORK, s.ordinal, body);
    if inner.Ok? {
      var s2 := s1.(work := inner.value.0, ordinal := inner.value.1);
      Blocks.RunSingle(cfg, s2, SysEnd);
    }
  }

  lemma AnySystemCall(cfg: Config, s: State, body: seq<TxEvent>)
    requires Ready(s)
    ensures SystemCallIs(cfg, s, body)
  {
    hide Run, RunWork, Attach, AddSystemCalls;
    if Idle(s) {
      IdleSystemCall(cfg, s, body);
    } else {
      SystemCallRestores(cfg, s, body);
    }
  }

  // ---------------------------------------------------------------- the calls of a body

  function CallEnd(c: CallRec): int { c.endOrdinal }

  /** Calls are filed as they are closed, none of them marked reverted. */
  ghost predicate ClosedInOrder(w: Work, ord: nat) {
    && (forall i :: 0 <= i < |w.stack| ==> !w.stack[i].stateReverted)
    && (w.trx.Some? ==>
         && StrictlyOrdered(CallEnd, w.trx.value.calls)
         && forall i :: 0 <= i < |w.trx.value.calls| ==>
              !w.trx.value.calls[i].stateReverted && w.trx.value.calls[i].endOrdinal <= ord)
  }

  lemma StepClosesInOrder(ctx: Ctx, w: Work, ord: nat, e: TxEvent)
    requires ClosedInOrder(w, ord) && StepWork(ctx, w, ord, e).Ok?
    ensures var r := StepWork(ctx, w, ord, e).value; ClosedInOrder(r.0, r.1)
  {
    hide ClosedInOrder, StepEnter, StepLeave, StepLeaf;
    match e
    case Enter(depth, f) => EnterClosesInOrder(ctx, w, ord, depth, f);
    case Leave(x) => LeaveClosesInOrder(ctx, w, ord, x);
    case _ => LeafClosesInOrder(ctx, w, ord, e);
  }

  lemma EnterClosesInOrder(ctx: Ctx, w: Work, ord: nat, depth: int, f: Frame)
    requires ClosedInOrder(w, ord) && StepEnter(ctx, w, ord, depth, f).Ok?
    ensures var r := StepEnter(ctx, w, ord, depth, f).value; ClosedInOrder(r.0, r.1)
  {
    hide DelegationOf, KindOf;
  }

  lemma LeaveClosesInOrder(ctx: Ctx, w: Work, ord: nat, x: Exit)
    requires ClosedInOrder(w, ord) && StepLeave(ctx, w, ord, x).Ok?
    ensures var r := StepLeave(ctx, w, ord, x).value; ClosedInOrder(r.0, r.1)
  {
    hide CostsNoGas;
  }

  lemma LeafClosesInOrder(ctx: Ctx, w: Work, ord: nat, e: TxEvent)
    requires ClosedInOrder(w, ord) && StepLeaf(ctx, w, ord, e).Ok?
    ensures var r := StepLeaf(ctx, w, ord, e).value; ClosedInOrder(r.0, r.1)
  {
    hide Records, RecordOf, AddTo, NextPreimages, LeafOutside;
  }

  lemma {:induction false} RunClosesInOrder(ctx: Ctx, w: Work, ord: nat, es: seq<TxEvent>)
    requires ClosedInOrder(w, ord) && RunWork(ctx, w, ord, es).Ok?
    ensures var r := RunWork(ctx, w, ord, es).value; ClosedInOrder(r.0, r.1)
    decreases |es|
  {
    hide StepWork, ClosedInOrder;
    if |es| > 0 {
      StepClosesInOrder(ctx, w, ord, es[0]);
      var r := StepWork(ctx, w, ord, es[0]).value;
      RunClosesInOrder(ctx, r.0, r.1, es[1..]);
    }
  }

  /** The trace of forest `f` as the body of a system call. */
  function SystemTrace(s: State, f: Items): Built {
    Build(SystemCtx(s), false, f, 0, Outside(NO_CHANGES), Env(s.ordinal, 0, 0, []))
  }

  lemma SystemBody(s: State, f: Items)
    requires WellFormed(f, false)
    ensures var b := SystemTrace(s, f);
      && b.h.Outside?
      && RunWork(SystemCtx(s), SYSTEM_WORK, s.ordinal, Flatten(f, 0)) == Ok((WorkAfter(SYSTEM_WORK, b), b.env.ord))
      && WorkAfter(SYSTEM_WORK, b).trx.value.calls == b.post
  {
    hide RunWork, Build;
    FlattenRuns(SystemCtx(s), SYSTEM_WORK, s.ordinal, f);
    assert [] + SystemTrace(s, f).post == SystemTrace(s, f).post;
  }

  lemma SystemLaws(s: State, f: Items)
    ensures var b := SystemTrace(s, f);
      && b.h.Outside? && multiset(b.pre) == multiset(b.post) && |b.pre| == Size(f)
      && (forall i :: 0 <= i < |b.pre| ==> b.pre[i].index == i + 1)
      && BlankCalls(b.pre) == Calls(SystemCtx(s), false, f, 0, 0, 1, NO_CHANGES)
      && BlankLists(b.h.d) == Leftover(f, NO_CHANGES)
  {
    hide Build, Nesting.BuiltLaws, Described, Nesting.ListsPlaced;
    var ctx, env := SystemCtx(s), Env(s.ordinal, 0, 0, []);
    NothingBlank();
    Nesting.NothingPlaced(0, s.ordinal, 0);
    Nesting.BuildObeys(ctx, false, f, 0, Outside(NO_CHANGES), env, 0);
    BuildDescribed(ctx, false, f, 0, Outside(NO_CHANGES), env);
    LawsOf(SystemTrace(s, f), env);
    DescribedOf(ctx, f, env, SystemTrace(s, f));
  }

  lemma LawsOf(b: Built, env: Env)
    requires Nesting.BuiltLaws(b, Outside(NO_CHANGES), env, 0) && env.index == 0
    ensures multiset(b.pre) == multiset(b.post) && forall i :: 0 <= i < |b.pre| ==> b.pre[i].index == i + 1
  {
    hide Nesting.CallPlaced, Nesting.SiblingLaw, Nesting.BeginLaw, Nesting.LeftoverLaw;
    forall i | 0 <= i < |b.pre| ensures b.pre[i].index == i + 1 {
      assert Nesting.CallLaw(b.pre, 0, 0, env.ord, b.env.ord, i);
    }
  }

  lemma DescribedOf(ctx: Ctx, f: Items, env: Env, b: Built)
    requires b.h.Outside? && Described(ctx, false, f, 0, Outside(NO_CHANGES), env, b) && env.index == 0
    ensures BlankCalls(b.pre) == Calls(ctx, false, f, 0, 0, 1, NO_CHANGES) && |b.pre| == Size(f)
    ensures BlankLists(b.h.d) == Leftover(f, NO_CHANGES)
  {
    NothingBlank();
  }

  // ---------------------------------------------------------------- what is filed

  /** Each filed call is one of the reported ones, with what was reported of it, its logs keeping their block indexes
      and none marked reverted, whatever failed. */
  ghost predicate FiledTold(cfg: Config, s: State, f: Items, filed: seq<CallRec>) {
    var os := ReportsOf(f);
    && |filed| == |os| == CallsIn(f)
    && (forall i :: 0 <= i < |filed| ==> 1 <= filed[i].index <= |os|)
    && (forall i :: 0 <= i < |filed| ==>
         && FrameTold(SystemCtx(s), false, os[filed[i].index - 1], filed[i])
         && ListsTold(cfg, os[filed[i].index - 1], [], false, filed[i])
         && !filed[i].stateReverted)
  }

  lemma PlainRenders(cfg: Config, c: CallRec)
    requires !c.stateReverted
    ensures RoundTrip.Renders(cfg, BlankCall(c), NO_CHANGES, c)
  {
    hide Concat;
    NothingBlank();
    ConcatEmpty(c.lists);
    RoundTrip.FinalisedRenders(cfg, c, NO_CHANGES, c.keccak, false);
  }

  lemma PlainIsTold(cfg: Config, ctx: Ctx, o: Reported, c: CallRec)
    requires OutlineTold(ctx, false, o, BlankCall(c)) && !c.stateReverted
    ensures FrameTold(ctx, false, o, c) && ListsTold(cfg, o, [], false, c)
  {
    hide OutlineTold, BlankCall, RoundTrip.Renders, FrameTold, ListsTold, Reporting;
    PlainRenders(cfg, c);
    NoLeaves();
    NothingReported(NO_CHANGES, false);
    RenderedIsTold(cfg, ctx, false, o, [], BlankCall(c), c);
  }

  lemma PreIsTold(cfg: Config, s: State, f: Items)
    requires WellFormed(f, false)
    requires forall i :: 0 <= i < |SystemTrace(s, f).pre| ==> !SystemTrace(s, f).pre[i].stateReverted
    ensures FiledTold(cfg, s, f, SystemTrace(s, f).pre)
  {
    hide SystemTrace, AllTold, Calls, Reports, AllLeaves, FiledTold;
    SystemLaws(s, f);
    NothingWaits();
    NoLeaves();
    SameSize(f);
    OutlineIsTold(SystemCtx(s), false, f, 0, 0, 1, [], NO_CHANGES, false);
    OutlinedTold(cfg, s, f, Calls(SystemCtx(s), false, f, 0, 0, 1, NO_CHANGES), SystemTrace(s, f).pre);
  }

  lemma OutlinedTold(cfg: Config, s: State, f: Items, outline: seq<CallRec>, pre: seq<CallRec>)
    requires AllTold(SystemCtx(s), false, ReportsOf(f), outline) && BlankCalls(pre) == outline
    requires forall i :: 0 <= i < |pre| ==> !pre[i].stateReverted && pre[i].index == i + 1
    ensures FiledTold(cfg, s, f, pre)
  {
    hide OutlineTold, FrameTold, ListsTold, Reports, BlankCall;
    var os := ReportsOf(f);
    forall i | 0 <= i < |pre|
      ensures FrameTold(SystemCtx(s), false, os[i], pre[i]) && ListsTold(cfg, os[i], [], false, pre[i])
    {
      assert BlankCalls(pre)[i] == BlankCall(pre[i]);
      PlainIsTold(cfg, SystemCtx(s), os[i], pre[i]);
    }
  }

  /** The same calls in another order, with preimages. */
  lemma SameCallsTold(cfg: Config, s: State, f: Items, pre: seq<CallRec>, post: seq<CallRec>, filed: seq<CallRec>)
    requires FiledTold(cfg, s, f, pre) && multiset(pre) == multiset(post) && |filed| == |post|
    requires forall i :: 0 <= i < |post| ==> filed[i] == post[i].(keccak := filed[i].keccak)
    ensures FiledTold(cfg, s, f, filed)
  {
    hide FrameTold, ListsTold, Reports;
    SameBagSameLength(pre, post);
    var os := ReportsOf(f);
    forall i | 0 <= i < |filed|
      ensures 1 <= filed[i].index <= |os| && !filed[i].stateReverted
      ensures FrameTold(SystemCtx(s), false, os[filed[i].index - 1], filed[i])
      ensures ListsTold(cfg, os[filed[i].index - 1], [], false, filed[i])
    {
      assert post[i] in multiset(post);
      assert post[i] in pre;
      KeccakUntold(cfg, SystemCtx(s), os[post[i].index - 1], post[i], filed[i].keccak);
    }
  }

  lemma KeccakUntold(cfg: Config, ctx: Ctx, o: Reported, c: CallRec, keccak: map<Word, Bytes>)
    requires FrameTold(ctx, false, o, c) && ListsTold(cfg, o, [], false, c)
    ensures FrameTold(ctx, false, o, c.(keccak := keccak)) && ListsTold(cfg, o, [], false, c.(keccak := keccak))
  {
    hide BodiesAre, LogsAre, LooksUp, KindIs, Gasless, Executes, Destructs;
  }

  /** A system call over a forest goes through exactly when no log and no storage change is reported after its last root
      call. It then leaves everything as it was but for the ordinal counter and the block, which gains the calls as
      reported, in the order they were closed, with the preimages that explain the slots they write. */
  ghost predicate SystemCallTold(cfg: Config, s: State, f: Items, r: State)
    requires s.block.Some?
  {
    var before := s.block.value.systemCalls;
    && r.block.Some? && |r.block.value.systemCalls| >= |before|
    && (var filed := r.block.value.systemCalls[|before|..];
        && r == s.(ordinal := r.ordinal, block := Some(s.block.value.(systemCalls := before + filed)))
        && FiledTold(cfg, s, f, filed) && StrictlyOrdered(CallEnd, filed) && PreimagesTold(filed, HashedIn(f, 0, 1)))
  }

  lemma SystemCallIsTold(cfg: Config, s: State, f: Items)
    requires Ready(s) && WellFormed(f, false)
    ensures var r := Run(cfg, s, SystemCall(Flatten(f, 0)));
      && (r.Ok? <==> StoragesIn(Trailing(f, [])) == [] && LogsIn(Trailing(f, [])) == [])
      && (r.Ok? ==> SystemCallTold(cfg, s, f, r.value))
  {
    hide Run, RunWork, Attach, SystemTrace, FiledTold, PreimagesTold, HashedIn, StoragesIn, LogsIn, Trailing;
    AnySystemCall(cfg, s, Flatten(f, 0));
    SystemBody(s, f);
    WaitingTold(s, f);
    SystemCallFiles(cfg, s, f);
    var b := SystemTrace(s, f);
    var r, before := Run(cfg, s, SystemCall(Flatten(f, 0))), s.block.value.systemCalls;
    if r.Ok? {
      assert (before + Attach(b.post, b.env.preimages))[|before|..] == Attach(b.post, b.env.preimages);
    }
  }

  lemma WaitingTold(s: State, f: Items)
    requires WellFormed(f, false)
    ensures var b := SystemTrace(s, f);
      b.h.Outside?
      && (HasCallOnlyChanges(b.h.d) <==> !(StoragesIn(Trailing(f, [])) == [] && LogsIn(Trailing(f, [])) == []))
  {
    hide SystemTrace, Trailing;
    SystemLaws(s, f);
    LeftoverTold(f, SystemTrace(s, f).h.d);
  }

  lemma SystemCallFiles(cfg: Config, s: State, f: Items)
    requires Ready(s) && WellFormed(f, false)
    ensures var b := SystemTrace(s, f); var filed := Attach(b.post, b.env.preimages);
      FiledTold(cfg, s, f, filed) && StrictlyOrdered(CallEnd, filed) && PreimagesTold(filed, HashedIn(f, 0, 1))
  {
    hide RunWork, Attach, SystemTrace, FiledTold, PreimagesTold, HashedIn, ClosedInOrder, Calls, Leftover;
    var b := SystemTrace(s, f);
    var filed := Attach(b.post, b.env.preimages);
    SystemBody(s, f);
    SystemLaws(s, f);
    SameBagSameLength(b.pre, b.post);
    assert ClosedInOrder(SYSTEM_WORK, s.ordinal) by { StartsInOrder(s.ordinal); }
    RunClosesInOrder(SystemCtx(s), SYSTEM_WORK, s.ordinal, Flatten(f, 0));
    PostInOrder(WorkAfter(SYSTEM_WORK, b), b.env.ord);
    forall i | 0 <= i < |b.pre| ensures !b.pre[i].stateReverted {
      assert b.pre[i] in multiset(b.pre);
      assert b.pre[i] in b.post;
    }
    PreIsTold(cfg, s, f);
    Ranges.AttachKeeps(b.post, b.env.preimages);
    SameCallsTold(cfg, s, f, b.pre, b.post, filed);
    SystemPreimages(s, f);
  }

  lemma StartsInOrder(ord: nat)
    ensures ClosedInOrder(SYSTEM_WORK, ord)
  {
  }

  lemma PostInOrder(w: Work, ord: nat)
    requires ClosedInOrder(w, ord) && w.trx.Some?
    ensures var calls := w.trx.value.calls;
      StrictlyOrdered(CallEnd, calls) && forall i :: 0 <= i < |calls| ==> !calls[i].stateReverted
  {
  }

  lemma SystemPreimages(s: State, f: Items)
    requires WellFormed(f, false) && StrictlyOrdered(CallEnd, SystemTrace(s, f).post)
    ensures var b := SystemTrace(s, f);
      PreimagesTold(Attach(b.post, b.env.preimages), HashedIn(f, 0, 1))
  {
    hide Attach, SystemTrace, PreimagesTold, HashedIn, LeftPreimages.NoneShown, DistinctIndexes, Calls, Leftover;
    var b := SystemTrace(s, f);
    SystemLaws(s, f);
    NoneShownYet(s, f);
    SystemHashes(s, f);
    DistinctByIndex(b.pre, b.post);
    Ranges.AttachKeeps(b.post, b.env.preimages);
    AttachedTold(b.post, b.env.preimages, Attach(b.post, b.env.preimages));
  }

  lemma NoneShownYet(s: State, f: Items)
    requires WellFormed(f, false)
    ensures LeftPreimages.NoneShown(SystemTrace(s, f).post)
  {
    hide RunWork, SystemTrace;
    SystemBody(s, f);
    RunShowsNothing(SystemCtx(s), SYSTEM_WORK, s.ordinal, Flatten(f, 0));
  }

  lemma SystemHashes(s: State, f: Items)
    requires WellFormed(f, false)
    ensures SystemTrace(s, f).env.preimages == HashedIn(f, 0, 1)
  {
    hide Build;
    BuildHashed(SystemCtx(s), false, f, 0, Outside(NO_CHANGES), Env(s.ordinal, 0, 0, []));
    assert [] + HashedIn(f, 0, 1) == HashedIn(f, 0, 1);
  }

  lemma DistinctByIndex(pre: seq<CallRec>, post: seq<CallRec>)
    requires multiset(pre) == multiset(post) && forall i :: 0 <= i < |pre| ==> pre[i].index == i + 1
    requires StrictlyOrdered(CallEnd, post)
    ensures DistinctIndexes(post)
  {
    forall i, j | 0 <= i < j < |post| ensures post[i].index != post[j].index {
      assert CallEnd(post[i]) < CallEnd(post[j]);
      SameByIndex(pre, post, i, j);
    }
  }

  lemma SameByIndex(pre: seq<CallRec>, post: seq<CallRec>, i: nat, j: nat)
    requires multiset(pre) == multiset(post) && (forall i :: 0 <= i < |pre| ==> pre[i].index == i + 1)
    requires i < |post| && j < |post|
    ensures post[i].index == post[j].index ==> post[i] == post[j]
  {
    assert post[i] in multiset(post) && post[j] in multiset(post);
    assert post[i] in pre && post[j] in pre;
  }
}
