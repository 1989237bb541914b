/** Why ordinal safety asks isolated tracers not to run system calls: they write them to the shared block
    with their own ordinals, which a commit never rebases (tracer.go:983-986, 1765-1772, 2096-2120). */
module IsolatedSystemCall {
  import opened Wrappers
  import opened Model
  import opened Completion
  import opened Machine
  import opened Ranges
  import opened World
  import opened Counts
  import opened Interruption
  import Receipts
  import opened OrdinalSafety

  // ---------------------------------------------------------------- the system call on the isolated tracer

  ghost function SystemTrace(prague: bool, body: seq<TxEvent>): Result<(seq<CallRec>, nat)> {
    var r :- RunWork(Ctx(true, prague, true, false), SYSTEM_WORK, 0, body);
    if r.0.trx.None? || HasCallOnlyChanges(r.0.deferred) then Panic
    else Ok((Attach(r.0.trx.value.calls, r.0.preimages), r.1))
  }

  /** A system call on a spawned tracer, with any body, files the calls it traced in the shared block. */
  lemma SystemCallFiles(cfg: Config, s: State, body: seq<TxEvent>)
    requires s.block.Some?
    ensures Run(cfg, Spawned(s), SystemCall(body))
         == match SystemTrace(s.prague, body)
            case Panic => Panic
            case Ok(r) => Ok(Spawned(s).(ordinal := r.1, block := Some(AddSystemCalls(s.block.value, r.0))))
  {
    hide RunWork, Attach, Step;
    var start, middle, end := [SysStart], Txs(body), [SysEnd];
    var i := Spawned(s);
    var i1 := i.(inSystemCall := true, work := SYSTEM_WORK);
    assert start + (middle + end) == SystemCall(body);
    RunConcat(cfg, i, start, middle + end);
    Starts(cfg, s);
    assert Run(cfg, i, start) == Ok(i1) by { assert start[1..] == []; }
    RunConcat(cfg, i1, middle, end);
    RunTxs(cfg, i1, body);
    var r := RunWork(CtxOf(i1), SYSTEM_WORK, 0, body);
    if r.Ok? {
      var i2 := i1.(work := r.value.0, ordinal := r.value.1);
      Ends(cfg, s, i2);
      assert end[1..] == [];
    }
  }

  lemma Starts(cfg: Config, s: State)
    requires s.block.Some?
    ensures Step(cfg, Spawned(s), SysStart) == Ok(Spawned(s).(inSystemCall := true, work := SYSTEM_WORK))
  {
  }

  lemma Ends(cfg: Config, s: State, i: State)
    requires s.block.Some? && i == Spawned(s).(inSystemCall := true, work := i.work, ordinal := i.ordinal)
    requires i.work.trx.Some?
    ensures Step(cfg, i, SysEnd)
         == if HasCallOnlyChanges(i.work.deferred) then Panic
            else Ok(Spawned(s).(ordinal := i.ordinal,
                                block := Some(AddSystemCalls(s.block.value,
                                                             Attach(i.work.trx.value.calls, i.work.preimages)))))
  {
    hide Attach;
  }

  /** The filed calls record ordinals of 1..counter, their own, each at most once, and some if there are any calls. */
  lemma FiledOrdinals(prague: bool, body: seq<TxEvent>)
    requires SystemTrace(prague, body).Ok?
    ensures var r := SystemTrace(prague, body).value;
      && (forall o: nat :: o >= 1 ==> CountCalls(r.0, o) <= One(o <= r.1))
      && (|r.0| > 0 ==> exists o: nat :: 1 <= o <= r.1 && CountCalls(r.0, o) == 1)
  {
    hide RunWork, Attach;
    var ctx := Ctx(true, prague, true, false);
    var w, counter := RunWork(ctx, SYSTEM_WORK, 0, body).value.0, RunWork(ctx, SYSTEM_WORK, 0, body).value.1;
    var calls, filed := w.trx.value.calls, Attach(w.trx.value.calls, w.preimages);
    SystemWorkCounts();
    Receipts.RunOnce(ctx, SYSTEM_WORK, 0, body);
    forall o: nat | o >= 1 ensures CountCalls(filed, o) <= One(o <= counter) {
      AttachCounts(calls, w.preimages, o);
      assert CountCalls(calls, o) <= CountWork(w, o);
    }
    if |filed| > 0 {
      NothingIn();
      RunIn(ctx, SYSTEM_WORK, 0, body);
      AttachIn(calls, w.preimages, counter);
      assert ClosedIn(filed[0], counter);
      CountFirst(filed);
    }
  }

  lemma SystemWorkCounts()
    ensures Receipts.Once(SYSTEM_WORK, 0)
  {
  }

  lemma {:induction false} CountFirst(calls: seq<CallRec>)
    requires |calls| > 0
    ensures CountCalls(calls, calls[0].beginOrdinal) >= 1
    decreases |calls|
  {
    if |calls| > 1 {
      CountFirst(calls[..|calls| - 1]);
    }
  }

  // ---------------------------------------------------------------- the coordinator goes on

  function WithFiled(b: Block, k: nat, filed: seq<CallRec>): Block
    requires k <= |b.systemCalls|
  {
    b.(systemCalls := b.systemCalls[..k] + filed + b.systemCalls[k..])
  }

  /** `d` is `c` with `filed` among the block's system calls, after the first `k`. */
  ghost predicate Filed(k: nat, filed: seq<CallRec>, c: State, d: State) {
    && c.block.Some? && k <= |c.block.value.systemCalls|
    && d == c.(block := Some(WithFiled(c.block.value, k, filed)))
  }

  ghost predicate StaysFiled(k: nat, filed: seq<CallRec>, r: Result<State>, r': Result<State>) {
    r.Ok? == r'.Ok? && (r.Ok? ==> Filed(k, filed, r.value, r'.value))
  }

  lemma FiledOutside(k: nat, filed: seq<CallRec>, c: State, d: State, change: Change)
    requires Filed(k, filed, c, d)
    ensures Filed(k, filed, c.(ordinal := change.ordinal, block := Some(AddBlockChange(c.block.value, change))),
                  d.(ordinal := change.ordinal, block := Some(AddBlockChange(d.block.value, change))))
  {
    FiledChange(c.block.value, k, filed, change);
    hide WithFiled, AddBlockChange;
  }

  lemma FiledSame(k: nat, filed: seq<CallRec>, c: State, d: State)
    requires Filed(k, filed, c, d)
    ensures CtxOf(c) == CtxOf(d) && c.work == d.work && c.ordinal == d.ordinal && c.block.Some? && d.block.Some?
    ensures forall w, o :: Filed(k, filed, c.(work := w, ordinal := o), d.(work := w, ordinal := o))
  {
    hide WithFiled;
  }

  lemma FiledTx(k: nat, filed: seq<CallRec>, c: State, d: State, e: TxEvent)
    requires Filed(k, filed, c, d)
    ensures StaysFiled(k, filed, StepTx(c, e), StepTx(d, e))
  {
    hide Filed, StepWork, AddBlockChange, CtxOf, IsNoOp;
    FiledSame(k, filed, c, d);
    if BlockLevel(c, e) {
      FiledOutside(k, filed, c, d, Change(c.ordinal + 1, e.change));
    }
  }

  lemma FiledChange(b: Block, k: nat, filed: seq<CallRec>, change: Change)
    requires k <= |b.systemCalls|
    ensures AddBlockChange(WithFiled(b, k, filed), change) == WithFiled(AddBlockChange(b, change), k, filed)
    ensures k <= |AddBlockChange(b, change).systemCalls|
  {
  }

  lemma FiledTxEnd(cfg: Config, k: nat, filed: seq<CallRec>, c: State, d: State, receipt: Option<Receipt>)
    requires Filed(k, filed, c, d)
    ensures StaysFiled(k, filed, StepTxEnd(cfg, c, receipt), StepTxEnd(cfg, d, receipt))
  {
    hide Complete;
  }

  lemma FiledSysStart(k: nat, filed: seq<CallRec>, c: State, d: State)
    requires Filed(k, filed, c, d)
    ensures StaysFiled(k, filed, StepSysStart(c), StepSysStart(d))
  {
    hide WithFiled;
  }

  lemma FiledSysEnd(k: nat, filed: seq<CallRec>, c: State, d: State)
    requires Filed(k, filed, c, d)
    ensures StaysFiled(k, filed, StepSysEnd(c), StepSysEnd(d))
  {
    hide Attach;
    if StepSysEnd(c).Ok? {
      FiledLater(c.block.value, k, filed, Attach(c.work.trx.value.calls, c.work.preimages));
      hide WithFiled, AddSystemCalls;
    }
  }

  lemma FiledLater(b: Block, k: nat, filed: seq<CallRec>, more: seq<CallRec>)
    requires k <= |b.systemCalls|
    ensures AddSystemCalls(WithFiled(b, k, filed), more) == WithFiled(AddSystemCalls(b, more), k, filed)
    ensures k <= |AddSystemCalls(b, more).systemCalls|
  {
    var s := b.systemCalls;
    assert (s + more)[..k] == s[..k] && (s + more)[k..] == s[k..] + more;
  }

  /** What the coordinator does next does not depend on the filed calls. */
  lemma FiledStep(cfg: Config, k: nat, filed: seq<CallRec>, c: State, d: State, e: Event)
    requires Filed(k, filed, c, d) && Inner(e)
    ensures StaysFiled(k, filed, Step(cfg, c, e), Step(cfg, d, e))
  {
    hide StepTx, StepTxEnd, StepSysStart, StepSysEnd, AuthsOf, WithFiled;
    match e
    case Tx(e) => FiledTx(k, filed, c, d, e);
    case TxEnd(receipt) => FiledTxEnd(cfg, k, filed, c, d, receipt);
    case SysStart => FiledSysStart(k, filed, c, d);
    case SysEnd => FiledSysEnd(k, filed, c, d);
    case _ => {}
  }

  lemma {:induction false} FiledRun(cfg: Config, k: nat, filed: seq<CallRec>, c: State, d: State, es: seq<Event>)
    requires Filed(k, filed, c, d) && forall i :: 0 <= i < |es| ==> Inner(es[i])
    ensures StaysFiled(k, filed, Run(cfg, c, es), Run(cfg, d, es))
    decreases |es|
  {
    hide Step, Filed;
    if |es| > 0 {
      FiledStep(cfg, k, filed, c, d, es[0]);
      var r, r' := Step(cfg, c, es[0]), Step(cfg, d, es[0]);
      if r.Ok? {
        FiledRun(cfg, k, filed, r.value, r'.value, es[1..]);
      }
    }
  }

  lemma FiledCounts(k: nat, filed: seq<CallRec>, c: State, d: State, o: nat)
    requires Filed(k, filed, c, d)
    ensures CountState(d, o) == CountState(c, o) + CountCalls(filed, o)
  {
    hide CountCalls, CountTxs, CountChanges, CountWork;
    var s := c.block.value.systemCalls;
    CountJoinCalls(s[..k] + filed, s[k..], o);
    CountJoinCalls(s[..k], filed, o);
    CountJoinCalls(s[..k], s[k..], o);
    assert s[..k] + s[k..] == s;
  }

  // ---------------------------------------------------------------- the collision

  function IsoEvents(id: nat, es: seq<Event>): seq<Action> {
    seq(|es|, i requires 0 <= i < |es| => OnIso(id, es[i]))
  }

  function CoordEvents(es: seq<Event>): seq<Action> {
    seq(|es|, i requires 0 <= i < |es| => Coord(es[i]))
  }

  lemma IsoStep(cfg: Config, w: World, id: nat, e: Event)
    requires id in w.iso
    ensures StepWorld(cfg, w, OnIso(id, e))
         == match Step(cfg, w.iso[id].(block := w.coord.block), e)
            case Panic => Panic
            case Ok(i) => Ok(World(w.coord.(block := i.block), w.iso[id := i]))
  {
    hide Step;
  }

  lemma {:induction false} IsoRun(cfg: Config, w: World, id: nat, es: seq<Event>)
    requires id in w.iso && |es| > 0
    ensures var r := Run(cfg, w.iso[id].(block := w.coord.block), es);
      RunWorld(cfg, w, IsoEvents(id, es))
      == match r case Panic => Panic case Ok(i) => Ok(World(w.coord.(block := i.block), w.iso[id := i]))
    decreases |es|
  {
    hide Step, StepWorld;
    assert IsoEvents(id, es)[1..] == IsoEvents(id, es[1..]) && IsoEvents(id, es)[0] == OnIso(id, es[0]);
    IsoStep(cfg, w, id, es[0]);
    var r := Step(cfg, w.iso[id].(block := w.coord.block), es[0]);
    if r.Ok? {
      var w1 := World(w.coord.(block := r.value.block), w.iso[id := r.value]);
      if |es| == 1 {
        assert es[1..] == [] && IsoEvents(id, []) == [];
      } else {
        IsoRun(cfg, w1, id, es[1..]);
        assert r.value.(block := r.value.block) == r.value;
        var last := Run(cfg, r.value, es[1..]);
        assert last.Ok? ==> w1.iso[id := last.value] == w.iso[id := last.value];
      }
    }
  }

  lemma {:induction false} CoordRun(cfg: Config, w: World, es: seq<Event>)
    requires forall i :: 0 <= i < |es| ==> Inner(es[i])
    ensures var r := RunWorld(cfg, w, CoordEvents(es));
      r == match Run(cfg, w.coord, es) case Panic => Panic case Ok(s) => Ok(World(s, w.iso))
    decreases |es|
  {
    hide Step;
    if |es| > 0 {
      assert CoordEvents(es)[1..] == CoordEvents(es[1..]) && CoordEvents(es)[0] == Coord(es[0]);
      var r := Step(cfg, w.coord, es[0]);
      if r.Ok? {
        assert StepWorld(cfg, w, Coord(es[0])) == Ok(World(r.value, w.iso));
        CoordRun(cfg, World(r.value, w.iso), es[1..]);
      }
    }
  }

  /** `id` is a tracer that has not begun anything. */
  predicate Unused(w: World, id: nat) {
    w.coord.block.Some? && id in w.iso && w.iso[id].(block := None) == Spawned(w.iso[id]).(block := None)
  }

  /** The run with an isolated system call after `actions`, and the run without it. */
  lemma WithAndWithout(cfg: Config, w: World, id: nat, body: seq<TxEvent>, es: seq<Event>)
    requires Unused(w, id) && forall i :: 0 <= i < |es| ==> Inner(es[i])
    ensures var filed, plain := SystemTrace(w.iso[id].prague, body), RunWorld(cfg, w, CoordEvents(es));
      var r := RunWorld(cfg, w, IsoEvents(id, SystemCall(body)) + CoordEvents(es));
      && (r.Ok? <==> plain.Ok? && filed.Ok?)
      && (r.Ok? ==> r.value.coord.ordinal == plain.value.coord.ordinal
                    && Filed(|w.coord.block.value.systemCalls|, filed.value.0, plain.value.coord, r.value.coord))
  {
    hide Run, RunWorld, SystemTrace, Filed, SystemCall, AddSystemCalls, WithFiled;
    var s := w.iso[id].(block := w.coord.block);
    assert Spawned(s) == s by { UnusedIsSpawned(w, id); }
    SystemCallFiles(cfg, s, body);
    assert |SystemCall(body)| > 0 by { SystemCallStarts(body); }
    IsoRun(cfg, w, id, SystemCall(body));
    RunWorldConcat(cfg, w, IsoEvents(id, SystemCall(body)), CoordEvents(es));
    CoordRun(cfg, w, es);
    var filed := SystemTrace(w.iso[id].prague, body);
    if filed.Ok? {
      var b := w.coord.block.value;
      var w1 := World(w.coord.(block := Some(AddSystemCalls(b, filed.value.0))),
                      w.iso[id := s.(ordinal := filed.value.1, block := Some(AddSystemCalls(b, filed.value.0)))]);
      assert RunWorld(cfg, w, IsoEvents(id, SystemCall(body))) == Ok(w1);
      CoordRun(cfg, w1, es);
      FiledAtFirst(w.coord, w1.coord, filed.value.0);
      FiledRun(cfg, |b.systemCalls|, filed.value.0, w.coord, w1.coord, es);
      if Run(cfg, w.coord, es).Ok? {
        FiledOrdinal(|b.systemCalls|, filed.value.0, Run(cfg, w.coord, es), Run(cfg, w1.coord, es));
      }
    }
  }

  lemma UnusedIsSpawned(w: World, id: nat)
    requires Unused(w, id)
    ensures var s := w.iso[id].(block := w.coord.block); Spawned(s) == s
  {
    var i := w.iso[id];
    assert i.(block := None).(block := w.coord.block) == Spawned(i).(block := None).(block := w.coord.block);
  }

  lemma SystemCallStarts(body: seq<TxEvent>)
    ensures |SystemCall(body)| > 0
  {
  }

  lemma FiledAtFirst(c: State, d: State, filed: seq<CallRec>)
    requires c.block.Some? && d == c.(block := Some(AddSystemCalls(c.block.value, filed)))
    ensures Filed(|c.block.value.systemCalls|, filed, c, d)
  {
    var s := c.block.value.systemCalls;
    assert s[..|s|] + filed + s[|s|..] == s + filed;
  }

  lemma FiledOrdinal(k: nat, filed: seq<CallRec>, r: Result<State>, r': Result<State>)
    requires StaysFiled(k, filed, r, r') && r.Ok?
    ensures r'.value.ordinal == r.value.ordinal
  {
  }

  /** After any run, an isolated tracer runs a system call with any body, and the coordinator goes on. If the call goes
      through, all goes on as without it, except that the calls filed in the block record their own ordinals once
      more. So when the run without it is orderly and lossless, an ordinal is recorded twice exactly when a filed call
      records it and the coordinator's counter reaches it. */
  lemma IsolatedSystemCallCollides(cfg: Config, actions: seq<Action>, id: nat, body: seq<TxEvent>,
                                   es: seq<Event>, o: nat)
    requires RunWorld(cfg, START, actions).Ok? && Unused(RunWorld(cfg, START, actions).value, id)
    requires (forall i :: 0 <= i < |es| ==> Inner(es[i])) && o >= 1
    ensures var filed := SystemTrace(RunWorld(cfg, START, actions).value.iso[id].prague, body);
      var plain := RunWorld(cfg, START, actions + CoordEvents(es));
      var r := RunWorld(cfg, START, actions + (IsoEvents(id, SystemCall(body)) + CoordEvents(es)));
      && (r.Ok? <==> plain.Ok? && filed.Ok?)
      && (r.Ok? ==> CountState(r.value.coord, o) == CountState(plain.value.coord, o) + CountCalls(filed.value.0, o))
      && (r.Ok? && OrderlyRun(cfg, START, actions + CoordEvents(es))
          && LosslessRun(cfg, START, actions + CoordEvents(es))
          ==> CountState(r.value.coord, o) <= 2
              && (CountState(r.value.coord, o) == 2
                  <==> CountCalls(filed.value.0, o) == 1 && o <= plain.value.coord.ordinal))
  {
    hide Run, RunWorld, SystemTrace, Filed, SystemCall, CountState, CountCalls, OrderlyRun, LosslessRun;
    var w := RunWorld(cfg, START, actions).value;
    RunWorldConcat(cfg, START, actions, CoordEvents(es));
    RunWorldConcat(cfg, START, actions, IsoEvents(id, SystemCall(body)) + CoordEvents(es));
    WithAndWithout(cfg, w, id, body, es);
    var filed := SystemTrace(w.iso[id].prague, body);
    var plain, r := RunWorld(cfg, w, CoordEvents(es)),
                    RunWorld(cfg, w, IsoEvents(id, SystemCall(body)) + CoordEvents(es));
    if r.Ok? {
      FiledCounts(|w.coord.block.value.systemCalls|, filed.value.0, plain.value.coord, r.value.coord, o);
      FiledOrdinals(w.iso[id].prague, body);
      var all := actions + CoordEvents(es);
      if OrderlyRun(cfg, START, all) && LosslessRun(cfg, START, all) {
        OrdinalSafety.OrdinalSafety(cfg, true, all);
        assert Right(true, CountState(plain.value.coord, o), o, plain.value.coord.ordinal);
      }
    }
  }
}
