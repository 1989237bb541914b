/** System calls run inside a transaction (tracer.go:1739-1825). Each one leaves the transaction exactly
    as it found it, and a transaction interrupted any number of times is the uninterrupted one with its
    ordinals renamed in an order-keeping way. */
module Interruption {
  import opened Bytes
  import opened Wrappers
  import opened Model
  import opened Completion
  import opened Machine
  import opened Sorting
  import opened Relabel
  import opened Ranges

  /** A coordinator inside a transaction, outside any system call. */
  ghost predicate InTransaction(s: State) {
    && s.block.Some? && s.work.trx.Some? && !s.inSystemCall && s.saved.None? && !s.isolated && !s.ended
    && WorkIn(s.work, s.ordinal)
  }

  function SystemCall(body: seq<TxEvent>): seq<Event> {
    [SysStart] + Txs(body) + [SysEnd]
  }

  const SYSTEM_WORK := FRESH.(trx := Some(SYSTEM_TX))

  /** The state in which a system call's body runs. */
  function InSystemCall(s: State): State {
    s.(work := SYSTEM_WORK, inSystemCall := true, saved := Some(s.work), ended := false)
  }

  /** From any state inside a transaction, a system call with any body succeeds exactly when its body does and
      leaves no log or storage change waiting for a call, and then restores the transaction, its call
      stack, deferred changes, log index, preimages and SELFDESTRUCT flag; only the ordinal counter has
      advanced and the block has gained the calls the body traced. */
  lemma SystemCallRestores(cfg: Config, s: State, body: seq<TxEvent>)
    requires InTransaction(s)
    ensures var r, inner := Run(cfg, s, SystemCall(body)),
                            RunWork(CtxOf(InSystemCall(s)), SYSTEM_WORK, s.ordinal, body);
      && (r.Ok? <==> inner.Ok? && !HasCallOnlyChanges(inner.value.0.deferred))
      && (r.Ok? ==>
        && inner.value.0.trx.Some? && inner.value.1 >= s.ordinal
        && r.value == s.(ordinal := inner.value.1,
                         block := Some(AddSystemCalls(s.block.value,
                                                      Attach(inner.value.0.trx.value.calls, inner.value.0.preimages)))))
  {
    hide RunWork, Attach;
    var start, middle, end := [SysStart], Txs(body), [SysEnd];
    var s1 := InSystemCall(s);
    assert Run(cfg, s, start) == Ok(s1) by {
      assert start[1..] == [];
      assert Step(cfg, s, SysStart) == Ok(s1);
    }
    RunConcat(cfg, s, start, middle + end);
    assert start + (middle + end) == SystemCall(body);
    RunConcat(cfg, s1, middle, end);
    RunTxs(cfg, s1, body);
    assert WorkIn(SYSTEM_WORK, s.ordinal);
    var inner := RunWork(CtxOf(s1), SYSTEM_WORK, s.ordinal, body);
    if inner.Ok? {
      RunIn(CtxOf(s1), SYSTEM_WORK, s.ordinal, body);
      var s2 := s1.(work := inner.value.0, ordinal := inner.value.1);
      assert end[1..] == [];
      assert Run(cfg, s2, end) == StepSysEnd(s2);
    }
  }

  // ---------------------------------------------------------------- interrupted and uninterrupted runs

  /** A transaction body as a sequence of its own events and system calls run in between. */
  datatype Piece = Own(e: TxEvent) | Interrupt(body: seq<TxEvent>)

  function PieceEvents(p: Piece): seq<Event> {
    match p case Own(e) => [Tx(e)] case Interrupt(body) => SystemCall(body)
  }

  function Interrupted(ps: seq<Piece>): seq<Event> {
    if |ps| == 0 then [] else PieceEvents(ps[0]) + Interrupted(ps[1..])
  }

  /** The same body without the system calls. */
  function Uninterrupted(ps: seq<Piece>): seq<TxEvent> {
    if |ps| == 0 then [] else (if ps[0].Own? then [ps[0].e] else []) + Uninterrupted(ps[1..])
  }

  /** Ordinals above `k` move up by `gap`. */
  function GapAfter(k: nat, gap: nat): nat -> nat { (x: nat) => if x <= k then x else x + gap }

  lemma WorkCompose(f: nat -> nat, g: nat -> nat, w: Work)
    ensures WorkBy(f, WorkBy(g, w)) == WorkBy(Compose(f, g), w)
  {
    hide ListsBy, CallsBy, TxBy;
    if w.trx.Some? {
      TxCompose(f, g, w.trx.value);
    }
    CallsCompose(f, g, w.stack);
    ListsCompose(f, g, w.deferred);
  }

  /** `f` renames the uninterrupted run's state and counter `plain` into the interrupted run's state `s`. */
  ghost predicate Renames(f: nat -> nat, plain: (Work, nat), s: State) {
    ShiftsFrom(f, plain.1, s.ordinal) && s.work == WorkBy(f, plain.0)
  }

  ghost predicate OnlySystemCallsAdded(s: State, s': State) {
    && s.block.Some? && s'.block.Some?
    && s.block.value.systemCalls <= s'.block.value.systemCalls
    && s' == s.(work := s'.work, ordinal := s'.ordinal,
                block := Some(s.block.value.(systemCalls := s'.block.value.systemCalls)))
  }

  lemma {:induction false} BodyUninterrupted(cfg: Config, s: State, ps: seq<Piece>) returns (f: nat -> nat)
    requires InTransaction(s) && Run(cfg, s, Interrupted(ps)).Ok?
    ensures var s', plain := Run(cfg, s, Interrupted(ps)).value,
                             RunWork(CtxOf(s), s.work, s.ordinal, Uninterrupted(ps));
      plain.Ok? && plain.value.1 >= s.ordinal && Renames(f, plain.value, s') && OnlySystemCallsAdded(s, s')
    ensures forall x: nat :: x <= s.ordinal ==> f(x) == x
    decreases |ps|
  {
    hide StepWork, WorkBy, SystemCall;
    if |ps| == 0 {
      f := Identity();
      WorkFixed(f, s.work, s.ordinal);
    } else {
      RunConcat(cfg, s, PieceEvents(ps[0]), Interrupted(ps[1..]));
      var s1 := Run(cfg, s, PieceEvents(ps[0])).value;
      if ps[0].Own? {
        f := OwnFirst(cfg, s, ps, s1);
      } else {
        f := InterruptFirst(cfg, s, ps, s1);
      }
    }
  }

  lemma {:induction false} OwnFirst(cfg: Config, s: State, ps: seq<Piece>, s1: State) returns (f: nat -> nat)
    requires InTransaction(s) && |ps| > 0 && ps[0].Own?
    requires Run(cfg, s, PieceEvents(ps[0])) == Ok(s1) && Run(cfg, s1, Interrupted(ps[1..])).Ok?
    ensures var s', plain := Run(cfg, s1, Interrupted(ps[1..])).value,
                             RunWork(CtxOf(s), s.work, s.ordinal, Uninterrupted(ps));
      plain.Ok? && plain.value.1 >= s.ordinal && Renames(f, plain.value, s') && OnlySystemCallsAdded(s, s')
    ensures forall x: nat :: x <= s.ordinal ==> f(x) == x
    decreases |ps|, 0
  {
    hide StepWork, WorkBy, SystemCall;
    var e := ps[0].e;
    assert PieceEvents(ps[0])[1..] == [];
    assert Step(cfg, s, Tx(e)) == Ok(s1);
    StaysInTransaction(CtxOf(s), s.work, s.ordinal, e);
    StepIn(CtxOf(s), s.work, s.ordinal, e);
    assert Uninterrupted(ps)[1..] == Uninterrupted(ps[1..]);
    f := BodyUninterrupted(cfg, s1, ps[1..]);
  }

  lemma {:induction false} InterruptFirst(cfg: Config, s: State, ps: seq<Piece>, s1: State) returns (f: nat -> nat)
    requires InTransaction(s) && |ps| > 0 && ps[0].Interrupt?
    requires Run(cfg, s, PieceEvents(ps[0])) == Ok(s1) && Run(cfg, s1, Interrupted(ps[1..])).Ok?
    ensures var s', plain := Run(cfg, s1, Interrupted(ps[1..])).value,
                             RunWork(CtxOf(s), s.work, s.ordinal, Uninterrupted(ps));
      plain.Ok? && plain.value.1 >= s.ordinal && Renames(f, plain.value, s') && OnlySystemCallsAdded(s, s')
    ensures forall x: nat :: x <= s.ordinal ==> f(x) == x
    decreases |ps|, 0
  {
    hide StepWork, WorkBy, SystemCall, Attach, Step, RunWork, Renames;
    SystemCallRestores(cfg, s, ps[0].body);
    assert Uninterrupted(ps) == Uninterrupted(ps[1..]);
    WorkInGrows(s.work, s.ordinal, s1.ordinal);
    var f1 := BodyUninterrupted(cfg, s1, ps[1..]);
    f := StartEarlier(CtxOf(s), s.work, s.ordinal, s1.ordinal, Uninterrupted(ps), f1,
                      Run(cfg, s1, Interrupted(ps[1..])).value);
  }

  /** A run from counter `later`, renamed by `f1` into `s`, is also the run from the earlier counter `ord`, renamed. */
  lemma StartEarlier(ctx: Ctx, w: Work, ord: nat, later: nat, es: seq<TxEvent>, f1: nat -> nat, s: State)
      returns (f: nat -> nat)
    requires WorkIn(w, ord) && ord <= later && RunWork(ctx, w, later, es).Ok?
    requires Renames(f1, RunWork(ctx, w, later, es).value, s) && forall x: nat :: x <= later ==> f1(x) == x
    ensures var plain := RunWork(ctx, w, ord, es); plain.Ok? && plain.value.1 >= ord && Renames(f, plain.value, s)
    ensures forall x: nat :: x <= ord ==> f(x) == x
  {
    hide RunWork, WorkBy, WorkIn, ShiftsFrom, Compose, GapAfter;
    var g := GapAfter(ord, later - ord);
    RunFromLater(ctx, w, ord, later, es);
    var plain := RunWork(ctx, w, ord, es).value;
    f := Compose(f1, g);
    ComposeFixes(f1, g, f, ord, later);
    WorkCompose(f1, g, plain.0);
    ComposeShifts(f1, ord, later, plain.1, s.ordinal);
  }

  lemma ComposeFixes(f: nat -> nat, g: nat -> nat, h: nat -> nat, ord: nat, later: nat)
    requires ord <= later && g == GapAfter(ord, later - ord) && h == Compose(f, g)
    requires forall x: nat :: x <= later ==> f(x) == x
    ensures forall x: nat :: x <= ord ==> h(x) == x
  {
  }

  lemma RunFromLater(ctx: Ctx, w: Work, ord: nat, later: nat, es: seq<TxEvent>)
    requires WorkIn(w, ord) && ord <= later && RunWork(ctx, w, later, es).Ok?
    ensures var plain, g := RunWork(ctx, w, ord, es), GapAfter(ord, later - ord);
      && plain.Ok? && plain.value.1 >= ord
      && RunWork(ctx, w, later, es) == Ok((WorkBy(g, plain.value.0), plain.value.1 + (later - ord)))
  {
    hide RunWork, WorkBy, ShiftsFrom, WorkIn;
    var g := GapAfter(ord, later - ord);
    assert forall x: nat :: x <= ord ==> g(x) == x;
    WorkFixed(g, w, ord);
    GapShifts(ord, later);
    RunBy(g, ctx, w, ord, later, es);
  }

  lemma GapShifts(ord: nat, later: nat)
    requires ord <= later
    ensures ShiftsFrom(GapAfter(ord, later - ord), ord, later)
  {
  }

  lemma ComposeShifts(f: nat -> nat, ord: nat, later: nat, middle: nat, end: nat)
    requires ord <= later && ord <= middle && ShiftsFrom(f, middle + (later - ord), end)
    ensures ShiftsFrom(Compose(f, GapAfter(ord, later - ord)), middle, end)
  {
    var g := GapAfter(ord, later - ord);
    forall x: nat, y: nat | x < y ensures Compose(f, g)(x) < Compose(f, g)(y) {
      assert g(x) < g(y);
    }
  }

  /** Interruption is invisible. A transaction traced with system calls anywhere inside it ends as the one
      traced without them, under an order-keeping renaming of its ordinals that fixes those used
      before; besides the transaction, the block differs only by the added system calls. */
  lemma InterruptionInvisible(cfg: Config, s: State, ps: seq<Piece>, receipt: Option<Receipt>) returns (f: nat -> nat)
    requires InTransaction(s) && Run(cfg, s, Interrupted(ps) + [TxEnd(receipt)]).Ok?
    ensures Renaming(f) && forall x: nat :: x <= s.ordinal ==> f(x) == x
    ensures var b, r, plain := s.block.value, Run(cfg, s, Interrupted(ps) + [TxEnd(receipt)]),
                               Run(cfg, s, Txs(Uninterrupted(ps)) + [TxEnd(receipt)]);
      && plain.Ok? && plain.value.block.Some? && r.value.block.Some?
      && b.systemCalls <= r.value.block.value.systemCalls
      && plain.value.block.value == b.(txs := plain.value.block.value.txs)
      && r.value.block.value == b.(txs := r.value.block.value.txs, systemCalls := r.value.block.value.systemCalls)
      && if receipt.None? && cfg.dropWithoutReceipt then plain.value.block.value.txs == r.value.block.value.txs == b.txs
         else exists t :: plain.value.block.value.txs == b.txs + [t] && r.value.block.value.txs == b.txs + [TxBy(f, t)]
  {
    hide StepWork, WorkBy, TxBy, Complete, RunWork, Interrupted;
    var end := [TxEnd(receipt)];
    RunConcat(cfg, s, Interrupted(ps), end);
    RunConcat(cfg, s, Txs(Uninterrupted(ps)), end);
    RunTxs(cfg, s, Uninterrupted(ps));
    f := BodyUninterrupted(cfg, s, ps);
    var s' := Run(cfg, s, Interrupted(ps)).value;
    var plain := RunWork(CtxOf(s), s.work, s.ordinal, Uninterrupted(ps)).value;
    EndBoth(cfg, s, s', plain, receipt, f);
  }

  lemma EndBoth(cfg: Config, s: State, s': State, plain: (Work, nat), receipt: Option<Receipt>, f: nat -> nat)
    requires InTransaction(s) && plain.0.trx.Some?
    requires Renames(f, plain, s') && OnlySystemCallsAdded(s, s')
    ensures Run(cfg, s', [TxEnd(receipt)]).Ok?
         == Run(cfg, s.(work := plain.0, ordinal := plain.1), [TxEnd(receipt)]).Ok?
    ensures var b, r, p := s.block.value, Run(cfg, s', [TxEnd(receipt)]),
                           Run(cfg, s.(work := plain.0, ordinal := plain.1), [TxEnd(receipt)]);
      r.Ok? ==>
      && p.value.block.Some? && r.value.block.Some?
      && p.value.block.value == b.(txs := p.value.block.value.txs)
      && r.value.block.value == b.(txs := r.value.block.value.txs, systemCalls := s'.block.value.systemCalls)
      && if receipt.None? && cfg.dropWithoutReceipt then p.value.block.value.txs == r.value.block.value.txs == b.txs
         else exists t :: p.value.block.value.txs == b.txs + [t] && r.value.block.value.txs == b.txs + [TxBy(f, t)]
  {
    hide TxBy, ListsBy, Complete, StepBlockStart, StepBlockEnd, StepSysStart, StepSysEnd, StepSnapshot, StepTxReset;
    hide StepTx;
    var p := s.(work := plain.0, ordinal := plain.1);
    assert [TxEnd(receipt)][1..] == [];
    assert Run(cfg, s', [TxEnd(receipt)]) == StepTxEnd(cfg, s', receipt);
    assert Run(cfg, p, [TxEnd(receipt)]) == (var r := StepTxEnd(cfg, p, receipt); r);
    CompleteBy(cfg, f, plain.0.trx.value, plain.0.deferred, plain.0.preimages, receipt, plain.1 + 1);
  }

  // ---------------------------------------------------------------- when an interrupted transaction succeeds

  /** Whether a system call with this body goes through, told from the body alone. */
  predicate GoesThrough(ctx: Ctx, body: seq<TxEvent>) {
    var r := RunWork(ctx, SYSTEM_WORK, 0, body);
    r.Ok? && !HasCallOnlyChanges(r.value.0.deferred)
  }

  predicate AllGoThrough(ctx: Ctx, ps: seq<Piece>) {
    forall i :: 0 <= i < |ps| && ps[i].Interrupt? ==> GoesThrough(ctx, ps[i].body)
  }

  /** Success does not depend on the ordinal the run starts from. */
  lemma SameFromLater(ctx: Ctx, w: Work, ord: nat, later: nat, es: seq<TxEvent>)
    requires WorkIn(w, ord) && ord <= later
    ensures var r, r' := RunWork(ctx, w, ord, es), RunWork(ctx, w, later, es);
      && r.Ok? == r'.Ok?
      && (r.Ok? ==> HasCallOnlyChanges(r.value.0.deferred) == HasCallOnlyChanges(r'.value.0.deferred))
  {
    hide RunWork, ShiftsFrom, WorkIn;
    var g := GapAfter(ord, later - ord);
    WorkFixed(g, w, ord);
    GapShifts(ord, later);
    RunBy(g, ctx, w, ord, later, es);
  }

  lemma {:induction false} BodySucceeds(cfg: Config, s: State, ps: seq<Piece>)
    requires InTransaction(s)
    ensures Run(cfg, s, Interrupted(ps)).Ok?
       <==> RunWork(CtxOf(s), s.work, s.ordinal, Uninterrupted(ps)).Ok? && AllGoThrough(CtxOf(InSystemCall(s)), ps)
    decreases |ps|
  {
    hide StepWork, SystemCall, Attach, GoesThrough;
    if |ps| > 0 {
      RunConcat(cfg, s, PieceEvents(ps[0]), Interrupted(ps[1..]));
      var r, tail := Run(cfg, s, PieceEvents(ps[0])), Uninterrupted(ps[1..]);
      SplitGoThrough(CtxOf(InSystemCall(s)), ps);
      if ps[0].Own? {
        OwnSucceeds(cfg, s, ps[0].e, tail);
        assert Uninterrupted(ps) == [ps[0].e] + tail;
      } else {
        InterruptSucceeds(cfg, s, ps[0].body, tail);
        assert Uninterrupted(ps) == tail;
      }
      if r.Ok? {
        BodySucceeds(cfg, r.value, ps[1..]);
      }
    }
  }

  lemma SplitGoThrough(ctx: Ctx, ps: seq<Piece>)
    requires |ps| > 0
    ensures AllGoThrough(ctx, ps) <==> (ps[0].Interrupt? ==> GoesThrough(ctx, ps[0].body)) && AllGoThrough(ctx, ps[1..])
  {
    hide GoesThrough;
    assert ps == [ps[0]] + ps[1..];
  }

  lemma OwnSucceeds(cfg: Config, s: State, e: TxEvent, tail: seq<TxEvent>)
    requires InTransaction(s)
    ensures var r, plain := Run(cfg, s, [Tx(e)]), RunWork(CtxOf(s), s.work, s.ordinal, [e] + tail);
      && (r.Panic? ==> plain.Panic?)
      && (r.Ok? ==> InTransaction(r.value) && CtxOf(r.value) == CtxOf(s)
                    && CtxOf(InSystemCall(r.value)) == CtxOf(InSystemCall(s))
                    && plain == RunWork(CtxOf(s), r.value.work, r.value.ordinal, tail))
  {
    hide StepWork, WorkIn;
    assert [Tx(e)][1..] == [] && ([e] + tail)[1..] == tail;
    assert Run(cfg, s, [Tx(e)]) == (var r := Step(cfg, s, Tx(e)); r);
    var r := StepWork(CtxOf(s), s.work, s.ordinal, e);
    if r.Ok? {
      StaysInTransaction(CtxOf(s), s.work, s.ordinal, e);
      StepIn(CtxOf(s), s.work, s.ordinal, e);
    }
  }

  lemma InterruptSucceeds(cfg: Config, s: State, body: seq<TxEvent>, tail: seq<TxEvent>)
    requires InTransaction(s)
    ensures var r := Run(cfg, s, SystemCall(body));
      && (r.Ok? <==> GoesThrough(CtxOf(InSystemCall(s)), body))
      && (r.Ok? ==> InTransaction(r.value) && CtxOf(r.value) == CtxOf(s)
                    && CtxOf(InSystemCall(r.value)) == CtxOf(InSystemCall(s))
                    && RunWork(CtxOf(s), s.work, s.ordinal, tail).Ok?
                       == RunWork(CtxOf(s), r.value.work, r.value.ordinal, tail).Ok?)
  {
    hide RunWork, SystemCall, Attach, Run, WorkIn;
    SystemCallRestores(cfg, s, body);
    assert WorkIn(SYSTEM_WORK, 0) by { NothingIn(); }
    SameFromLater(CtxOf(InSystemCall(s)), SYSTEM_WORK, 0, s.ordinal, body);
    var r := Run(cfg, s, SystemCall(body));
    if r.Ok? {
      WorkInGrows(s.work, s.ordinal, r.value.ordinal);
      SameFromLater(CtxOf(s), s.work, s.ordinal, r.value.ordinal, tail);
    }
  }

  lemma NothingIn()
    ensures WorkIn(SYSTEM_WORK, 0)
  {
  }

  /** The interrupted transaction succeeds exactly when the uninterrupted one does and every system call goes
      through. */
  lemma InterruptionSucceeds(cfg: Config, s: State, ps: seq<Piece>, receipt: Option<Receipt>)
    requires InTransaction(s)
    ensures Run(cfg, s, Interrupted(ps) + [TxEnd(receipt)]).Ok?
       <==> Run(cfg, s, Txs(Uninterrupted(ps)) + [TxEnd(receipt)]).Ok? && AllGoThrough(CtxOf(InSystemCall(s)), ps)
  {
    hide StepWork, WorkBy, TxBy, Complete, RunWork, Interrupted, AllGoThrough;
    var end := [TxEnd(receipt)];
    RunConcat(cfg, s, Interrupted(ps), end);
    RunConcat(cfg, s, Txs(Uninterrupted(ps)), end);
    RunTxs(cfg, s, Uninterrupted(ps));
    BodySucceeds(cfg, s, ps);
    var r := Run(cfg, s, Interrupted(ps));
    if r.Ok? {
      var f := BodyUninterrupted(cfg, s, ps);
      EndBoth(cfg, s, r.value, RunWork(CtxOf(s), s.work, s.ordinal, Uninterrupted(ps)).value, receipt, f);
    }
  }
}
