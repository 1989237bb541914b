/** Parallel tracing equals sequential tracing. Transactions traced on their own isolated tracers and
    committed in order give the same block and the same ordinal counter as tracing them one after the
    other on the coordinator, whatever the interleaving, and whatever changes and system calls the coordinator
    traces in between; dropped transactions are the one exception, and they only move ordinals. */
module Parallel {
  import opened Bytes
  import opened Wrappers
  import opened Model
  import opened Completion
  import opened Machine
  import opened Relabel
  import opened World
  import opened Streams
  import opened Programs

  /** How far a schedule got: the events delivered to each spawned tracer, named after its place in the program, and
      the number of items done. */
  datatype Progress = Progress(delivered: map<nat, nat>, done: nat)

  function StreamEvents(item: Item): seq<Event> { if item.Whole? then EventsOf(item.st) else [] }

  predicate Allowed(items: seq<Item>, p: Progress, a: Action) {
    match a
    case Coord(e) => p.done < |items| && items[p.done] == Own(e)
    case Spawn(i) => i < |items| && items[i].Whole? && i !in p.delivered
    case OnIso(i, e) => i < |items| && i in p.delivered && p.delivered[i] < |StreamEvents(items[i])|
                        && e == StreamEvents(items[i])[p.delivered[i]]
    case Commit(i) => i == p.done < |items| && i in p.delivered && p.delivered[i] == |StreamEvents(items[i])|
  }

  function Advance(p: Progress, a: Action): Progress {
    match a
    case Spawn(i) => p.(delivered := p.delivered[i := 0])
    case OnIso(i, _) => if i in p.delivered then p.(delivered := p.delivered[i := p.delivered[i] + 1]) else p
    case Commit(_) => p.(done := p.done + 1)
    case Coord(_) => p.(done := p.done + 1)
  }

  /** `actions` spawns a tracer for each transaction of the program, delivers each one's events in order, in any
      interleaving, and goes through the program: the coordinator's own events, and commits of finished tracers. */
  predicate Schedules(items: seq<Item>, p: Progress, actions: seq<Action>)
    decreases |actions|
  {
    if |actions| == 0 then p.done == |items|
    else Allowed(items, p, actions[0]) && Schedules(items, Advance(p, actions[0]), actions[1..])
  }

  /** What a spawned tracer holds: its stream's events so far, run on a fresh tracer, in the shared block. */
  ghost predicate HasTraced(cfg: Config, s0: State, st: Stream, delivered: nat, i: State)
    requires s0.block.Some?
  {
    && delivered <= |EventsOf(st)|
    && Run(cfg, Spawned(s0), EventsOf(st)[..delivered]) == Ok(i.(block := s0.block))
    && (delivered > 0 ==> i.work.trx.Some?) && i.isolated
  }

  /** The coordinator's block is open, under the rules it had at first. */
  predicate SameRules(s0: State, s: State) {
    s.block.Some? && s.prague == s0.prague && s.finality == s0.finality
  }

  ghost predicate OnSchedule(cfg: Config, s0: State, items: seq<Item>, p: Progress, w: World)
    requires s0.block.Some?
  {
    && p.done <= |items| && Merged(cfg, s0, items[..p.done]) == Ok(w.coord) && SameRules(s0, w.coord)
    && p.delivered.Keys == w.iso.Keys
    && (forall i :: i in p.delivered ==> i < |items| && items[i].Whole?)
    && (forall i: nat :: i < p.done && items[i].Whole? ==> i in p.delivered
                                                           && p.delivered[i] == |EventsOf(items[i].st)|)
    && forall i :: i in p.delivered && i >= p.done ==> HasTraced(cfg, s0, items[i].st, p.delivered[i], w.iso[i])
  }

  lemma KindAt(st: Stream, k: nat)
    requires k < |EventsOf(st)|
    ensures var e := EventsOf(st)[k]; if k == 0 then e.TxStart? else e.Tx? || e.TxEnd?
  {
  }

  ghost predicate SameButBlock(s: State, b: Option<Block>, r: Result<State>, r': Result<State>) {
    && r.Panic? == r'.Panic?
    && (r.Ok? ==> r'.value == r.value.(block := b) && r.value.block == s.block && r.value.work.trx.Some?
                  && r.value.isolated)
  }

  lemma TxBlockIndependent(s: State, b: Option<Block>, e: TxEvent)
    requires s.block.Some? && b.Some? && s.isolated && s.work.trx.Some?
    ensures SameButBlock(s, b, StepTx(s, e), StepTx(s.(block := b), e))
  {
    hide StepWork, IsNoOp;
    assert CtxOf(s) == CtxOf(s.(block := b));
    if StepWork(CtxOf(s), s.work, s.ordinal, e).Ok? {
      StaysInTransaction(CtxOf(s), s.work, s.ordinal, e);
    }
  }

  /** An isolated tracer's own events do not look at the contents of the block, nor change them. */
  lemma BlockIndependent(cfg: Config, s: State, b: Option<Block>, e: Event)
    requires s.block.Some? && b.Some? && s.isolated
    requires e.TxStart? || (s.work.trx.Some? && (e.Tx? || e.TxEnd?))
    ensures SameButBlock(s, b, Step(cfg, s, e), Step(cfg, s.(block := b), e))
  {
    hide StepTx, StepTxStart, StepTxEnd, StepBlockStart, StepBlockEnd, StepSysStart, StepSysEnd, StepSnapshot;
    hide StepTxReset, SameButBlock;
    match e
    case Tx(e) => TxBlockIndependent(s, b, e);
    case TxStart(info, signers, reader) => StartBlockIndependent(s, b, info, signers, reader);
    case TxEnd(receipt) => EndBlockIndependent(cfg, s, b, receipt);
  }

  lemma StartBlockIndependent(s: State, b: Option<Block>, info: TxInfo, signers: seq<(Bytes, nat)>, reader: bool)
    requires s.block.Some? && b.Some? && s.isolated
    ensures SameButBlock(s, b, StepTxStart(s, info, signers, reader),
                         StepTxStart(s.(block := b), info, signers, reader))
  {
    hide AuthsOf;
  }

  lemma EndBlockIndependent(cfg: Config, s: State, b: Option<Block>, receipt: Option<Receipt>)
    requires s.block.Some? && b.Some? && s.isolated && s.work.trx.Some?
    ensures SameButBlock(s, b, StepTxEnd(cfg, s, receipt), StepTxEnd(cfg, s.(block := b), receipt))
  {
    hide Complete;
  }

  lemma RunPrefix(cfg: Config, s: State, es: seq<Event>, k: nat)
    requires k < |es|
    ensures Run(cfg, s, es[..k + 1])
         == match Run(cfg, s, es[..k]) case Panic => Panic case Ok(s1) => Step(cfg, s1, es[k])
  {
    hide Step;
    assert es[..k + 1] == es[..k] + [es[k]];
    RunConcat(cfg, s, es[..k], [es[k]]);
    var r := Run(cfg, s, es[..k]);
    if r.Ok? {
      var r1 := Step(cfg, r.value, es[k]);
      assert [es[k]][1..] == [];
    }
  }

  /** One delivery: the tracer moves along its stream, or its whole stream panics. */
  lemma Delivery(cfg: Config, s0: State, st: Stream, k: nat, i: State, block: Option<Block>)
    requires s0.block.Some? && block.Some? && k < |EventsOf(st)| && HasTraced(cfg, s0, st, k, i)
    ensures var r := Step(cfg, i.(block := block), EventsOf(st)[k]);
      && (r.Ok? ==> HasTraced(cfg, s0, st, k + 1, r.value) && r.value.block == block)
      && (r.Panic? ==> Run(cfg, Spawned(s0), EventsOf(st)).Panic?)
  {
    hide Step;
    var es := EventsOf(st);
    RunPrefix(cfg, Spawned(s0), es, k);
    KindAt(st, k);
    BlockIndependent(cfg, i.(block := block), s0.block, es[k]);
    assert i.(block := block).(block := s0.block) == i.(block := s0.block);
    if Step(cfg, i.(block := block), es[k]).Panic? {
      assert es == es[..k + 1] + es[k + 1..];
      RunConcat(cfg, Spawned(s0), es[..k + 1], es[k + 1..]);
    }
  }

  // ---------------------------------------------------------------- along the program

  lemma {:induction false} MergedConcat(cfg: Config, s: State, a: seq<Item>, b: seq<Item>)
    ensures Merged(cfg, s, a + b)
         == match Merged(cfg, s, a) case Panic => Panic case Ok(s1) => Merged(cfg, s1, b)
    decreases |a|
  {
    hide MergeOne;
    if |a| == 0 {
      assert a + b == b;
    } else {
      assert (a + b)[1..] == a[1..] + b;
      var r := MergeOne(cfg, s, a[0]);
      if r.Ok? {
        MergedConcat(cfg, r.value, a[1..], b);
      }
    }
  }

  lemma MergedNext(cfg: Config, s: State, items: seq<Item>, k: nat)
    requires k < |items|
    ensures Merged(cfg, s, items[..k + 1])
         == match Merged(cfg, s, items[..k]) case Panic => Panic case Ok(s1) => MergeOne(cfg, s1, items[k])
  {
    hide MergeOne;
    assert items[..k + 1] == items[..k] + [items[k]];
    MergedConcat(cfg, s, items[..k], [items[k]]);
    var r := Merged(cfg, s, items[..k]);
    if r.Ok? {
      var r1 := MergeOne(cfg, r.value, items[k]);
      assert [items[k]][1..] == [];
    }
  }

  /** A panic on the way is a panic of the whole. */
  lemma MergedPrefix(cfg: Config, s: State, items: seq<Item>, k: nat)
    requires k <= |items| && Merged(cfg, s, items[..k]).Panic?
    ensures Merged(cfg, s, items).Panic?
  {
    assert items == items[..k] + items[k..];
    MergedConcat(cfg, s, items[..k], items[k..]);
  }

  predicate InnerItem(item: Item) { item.Own? ==> item.e.SysStart? || item.e.SysEnd? || item.e.Tx? }

  lemma OwnKeepsRules(cfg: Config, s: State, e: Event)
    requires s.block.Some? && InnerItem(Own(e)) && Step(cfg, s, e).Ok?
    ensures SameRules(s, Step(cfg, s, e).value)
  {
    hide StepWork, Attach;
  }

  lemma ItemKeepsRules(cfg: Config, s: State, item: Item)
    requires s.block.Some? && InnerItem(item) && MergeOne(cfg, s, item).Ok?
    ensures SameRules(s, MergeOne(cfg, s, item).value)
  {
    hide Step, Trace, TxBy;
    if item.Own? {
      OwnKeepsRules(cfg, s, item.e);
    }
  }

  lemma {:induction false} ProgramIsInner(inside: bool, items: seq<Item>)
    requires IsProgram(inside, items)
    ensures forall i :: 0 <= i < |items| ==> InnerItem(items[i])
    decreases |items|
  {
    if |items| > 0 {
      ProgramIsInner(InsideAfter(inside, items[0]), items[1..]);
      assert items == [items[0]] + items[1..];
    }
  }

  /** A panic in one transaction is a panic of the whole. */
  lemma {:induction false} PanicSpreads(cfg: Config, s: State, items: seq<Item>, i: nat)
    requires s.block.Some? && i < |items| && items[i].Whole? && Trace(cfg, s.prague, items[i].st, 0).Panic?
    requires forall k :: 0 <= k < |items| ==> InnerItem(items[k])
    ensures Merged(cfg, s, items).Panic?
    decreases |items|
  {
    hide Trace, Step, CommitTraced;
    var r := MergeOne(cfg, s, items[0]);
    if r.Ok? {
      assert i > 0;
      ItemKeepsRules(cfg, s, items[0]);
      PanicSpreads(cfg, r.value, items[1..], i - 1);
    }
  }

  /** A finished tracer holds its stream's trace from zero, or the drop mark; committing it is committing that trace. */
  lemma CommitStep(cfg: Config, s0: State, items: seq<Item>, p: Progress, w: World)
    requires Idle(s0) && OnSchedule(cfg, s0, items, p, w) && Allowed(items, p, Commit(p.done))
    ensures var r := StepCommit(w, p.done);
      && r.Ok? && r.value.iso.Keys == w.iso.Keys && SameRules(s0, r.value.coord)
      && (forall i :: i in w.iso && i != p.done ==> r.value.iso[i] == w.iso[i])
      && Merged(cfg, s0, items[..p.done + 1]) == Ok(r.value.coord)
  {
    hide Step, Run, Merged, EventsOf, Trace, TxBy, AddTx;
    var k := p.done;
    var st := items[k].st;
    assert EventsOf(st)[..|EventsOf(st)|] == EventsOf(st);
    IsolatedRun(cfg, s0, st);
    MergedNext(cfg, s0, items, k);
  }

  ghost predicate StaysOnSchedule(cfg: Config, s0: State, items: seq<Item>, p: Progress, r: Result<World>)
    requires s0.block.Some?
  {
    && (r.Panic? ==> Merged(cfg, s0, items).Panic?)
    && (r.Ok? ==> OnSchedule(cfg, s0, items, p, r.value))
  }

  lemma ScheduledSpawn(cfg: Config, s0: State, items: seq<Item>, p: Progress, w: World, i: nat)
    requires Idle(s0) && OnSchedule(cfg, s0, items, p, w) && Allowed(items, p, Spawn(i))
    ensures StaysOnSchedule(cfg, s0, items, Advance(p, Spawn(i)), StepWorld(cfg, w, Spawn(i)))
  {
    hide Step, Run, Merged, EventsOf, Trace;
    assert EventsOf(items[i].st)[..0] == [];
    NoEvents(cfg, Spawned(s0));
  }

  lemma ScheduledDelivery(cfg: Config, s0: State, items: seq<Item>, p: Progress, w: World, i: nat, e: Event)
    requires Idle(s0) && OnSchedule(cfg, s0, items, p, w) && Allowed(items, p, OnIso(i, e))
    requires forall k :: 0 <= k < |items| ==> InnerItem(items[k])
    ensures StaysOnSchedule(cfg, s0, items, Advance(p, OnIso(i, e)), StepWorld(cfg, w, OnIso(i, e)))
  {
    hide Step, Run, Merged, EventsOf, Trace, Spawned;
    assert i >= p.done;
    Delivery(cfg, s0, items[i].st, p.delivered[i], w.iso[i], w.coord.block);
    if StepWorld(cfg, w, OnIso(i, e)).Panic? {
      IsolatedRun(cfg, s0, items[i].st);
      PanicSpreads(cfg, s0, items, i);
    }
  }

  lemma ScheduledCommit(cfg: Config, s0: State, items: seq<Item>, p: Progress, w: World)
    requires Idle(s0) && OnSchedule(cfg, s0, items, p, w) && Allowed(items, p, Commit(p.done))
    ensures StaysOnSchedule(cfg, s0, items, Advance(p, Commit(p.done)), StepWorld(cfg, w, Commit(p.done)))
  {
    hide Step, Run, Merged, EventsOf, Trace, StepCommit;
    CommitStep(cfg, s0, items, p, w);
  }

  lemma ScheduledOwn(cfg: Config, s0: State, items: seq<Item>, p: Progress, w: World, e: Event)
    requires Idle(s0) && OnSchedule(cfg, s0, items, p, w) && Allowed(items, p, Coord(e)) && InnerItem(Own(e))
    ensures StaysOnSchedule(cfg, s0, items, Advance(p, Coord(e)), StepWorld(cfg, w, Coord(e)))
  {
    hide Step, Run, Merged, EventsOf, Trace;
    MergedNext(cfg, s0, items, p.done);
    if Step(cfg, w.coord, e).Ok? {
      OwnKeepsRules(cfg, w.coord, e);
    } else {
      MergedPrefix(cfg, s0, items, p.done + 1);
    }
  }

  /** One action of a schedule keeps the correspondence, or the whole panics. */
  lemma ScheduledStep(cfg: Config, s0: State, items: seq<Item>, p: Progress, w: World, a: Action)
    requires Idle(s0) && OnSchedule(cfg, s0, items, p, w) && Allowed(items, p, a)
    requires forall k :: 0 <= k < |items| ==> InnerItem(items[k])
    ensures StaysOnSchedule(cfg, s0, items, Advance(p, a), StepWorld(cfg, w, a))
  {
    hide StepWorld, Idle, OnSchedule, StaysOnSchedule, InnerItem;
    match a
    case Coord(e) => ScheduledOwn(cfg, s0, items, p, w, e);
    case Spawn(i) => ScheduledSpawn(cfg, s0, items, p, w, i);
    case OnIso(i, e) => ScheduledDelivery(cfg, s0, items, p, w, i, e);
    case Commit(i) => ScheduledCommit(cfg, s0, items, p, w);
  }

  lemma {:induction false} ScheduledRun(cfg: Config, s0: State, items: seq<Item>, p: Progress, w: World,
                                        actions: seq<Action>)
    requires Idle(s0) && OnSchedule(cfg, s0, items, p, w) && Schedules(items, p, actions)
    requires forall k :: 0 <= k < |items| ==> InnerItem(items[k])
    ensures var r := RunWorld(cfg, w, actions);
      match Merged(cfg, s0, items)
      case Panic => r.Panic?
      case Ok(s) => r.Ok? && r.value.coord == s
    decreases |actions|
  {
    hide StepWorld, Merged, HasTraced, InnerItem;
    if |actions| == 0 {
      assert items[..|items|] == items;
    } else {
      ScheduledStep(cfg, s0, items, p, w, actions[0]);
      var r := StepWorld(cfg, w, actions[0]);
      if r.Ok? {
        ScheduledRun(cfg, s0, items, Advance(p, actions[0]), r.value, actions[1..]);
      }
    }
  }

  /** Parallel equals sequential. Whatever the interleaving of isolated tracers with each other and with the
      coordinator's own changes and system calls, going through a program with commits panics exactly when doing
      everything on the coordinator does. Otherwise what it adds to the block is what the other adds up to an
      order-keeping renaming of ordinals, and the coordinator ends in the very same state, block and ordinal counter
      included, exactly when no transaction is dropped for want of a receipt. */
  lemma ParallelEqualsSequential(cfg: Config, s: State, items: seq<Item>, actions: seq<Action>) returns (f: nat -> nat)
    requires Idle(s) && IsProgram(false, items) && Schedules(items, Progress(map[], 0), actions)
    ensures var p, q := RunWorld(cfg, World(s, map[]), actions), Run(cfg, s, AllEvents(items));
      && p.Panic? == q.Panic?
      && (p.Ok? ==> EndsRenamed(f, s.block.value, 0, Ok(p.value.coord), q)
                    && (p.value.coord == q.value <==> !SomeDropped(cfg, items)))
    ensures forall x: nat :: x <= s.ordinal ==> f(x) == x
  {
    hide Run, RunWorld, AllEvents, Merged, SomeDropped, Schedules, Renamed;
    NothingDone(cfg, s, items);
    ProgramIsInner(false, items);
    ScheduledRun(cfg, s, items, Progress(map[], 0), World(s, map[]), actions);
    f := SequentialEqualsMerged(cfg, s, items);
  }

  lemma NothingDone(cfg: Config, s: State, items: seq<Item>)
    requires Idle(s)
    ensures OnSchedule(cfg, s, items, Progress(map[], 0), World(s, map[]))
  {
  }
}
