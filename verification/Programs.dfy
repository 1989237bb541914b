/** What a coordinator does in a block: changes and system calls of its own, and whole transactions in between. The
    transactions can be traced on it one after the other, or traced from zero elsewhere and committed. Both give the
    same trace up to an order-keeping renaming of ordinals, and the very same one exactly when none is dropped. */
module Programs {
  import opened Wrappers
  import opened Model
  import opened Sorting
  import opened Completion
  import opened Machine
  import opened Relabel
  import opened Ranges
  import opened World
  import opened Streams

  datatype Item = Own(e: Event) | Whole(st: Stream)

  /** Outside a transaction, a coordinator gets changes and system calls. */
  predicate OwnAllowed(inside: bool, e: Event) {
    if inside then e.SysEnd? || e.Tx? else e.SysStart? || (e.Tx? && e.e.Changed?)
  }

  function NextInside(inside: bool, e: Event): bool {
    if e.SysStart? then true else if e.SysEnd? then false else inside
  }

  function InsideAfter(inside: bool, item: Item): bool { if item.Own? then NextInside(inside, item.e) else inside }

  predicate ItemAllowed(inside: bool, item: Item) { if item.Own? then OwnAllowed(inside, item.e) else !inside }

  /** Transactions come between system calls; `inside` says that one is running. */
  predicate IsProgram(inside: bool, items: seq<Item>)
    decreases |items|
  {
    |items| > 0 ==> ItemAllowed(inside, items[0]) && IsProgram(InsideAfter(inside, items[0]), items[1..])
  }

  function ItemEvents(item: Item): seq<Event> { if item.Own? then [item.e] else EventsOf(item.st) }

  /** Everything on the coordinator. */
  function AllEvents(items: seq<Item>): seq<Event>
    decreases |items|
  {
    if |items| == 0 then [] else ItemEvents(items[0]) + AllEvents(items[1..])
  }

  /** Commit of a transaction traced from zero; a dropped one leaves no mark, not even used ordinals. */
  function CommitTraced(s: State, t: Traced): State {
    if t.trx.None? || s.block.None? then s else Committed(s, t.trx.value)
  }

  ghost function MergeOne(cfg: Config, s: State, item: Item): Result<State> {
    match item
    case Own(e) => Step(cfg, s, e)
    case Whole(st) => var t :- Trace(cfg, s.prague, st, 0); Ok(CommitTraced(s, t))
  }

  /** Transactions traced from zero and committed, the coordinator's own events on it. */
  ghost function Merged(cfg: Config, s: State, items: seq<Item>): Result<State>
    decreases |items|
  {
    if |items| == 0 then Ok(s)
    else
      var s1 :- MergeOne(cfg, s, items[0]);
      Merged(cfg, s1, items[1..])
  }

  predicate ItemDropped(cfg: Config, item: Item) { item.Whole? && IsDropped(cfg, item.st) }

  ghost predicate SomeDropped(cfg: Config, items: seq<Item>) {
    exists i :: 0 <= i < |items| && ItemDropped(cfg, items[i])
  }

  // ---------------------------------------------------------------- a coordinator between transactions

  ghost predicate Calling(s: State) {
    && s.block.Some? && s.work.trx.Some? && s.inSystemCall && s.saved.None? && !s.genesis
    && !s.isolated && !s.ended && !s.dropped
  }

  ghost predicate InProgram(inside: bool, s: State) {
    if inside then Calling(s) else Idle(s)
  }

  // ---------------------------------------------------------------- blocks that differ by a renaming

  /** What is added to block `b`: the lists of `a` after its own. */
  function Extended(b: Block, a: Block): Block {
    b.(txs := b.txs + a.txs, systemCalls := b.systemCalls + a.systemCalls,
       balanceChanges := b.balanceChanges + a.balanceChanges, codeChanges := b.codeChanges + a.codeChanges)
  }

  function TxMap(f: nat -> nat): TxTrace -> TxTrace { (t: TxTrace) => TxBy(f, t) }

  function BlockBy(f: nat -> nat, a: Block): Block {
    a.(txs := MapSeq(TxMap(f), a.txs), systemCalls := CallsBy(f, a.systemCalls),
       balanceChanges := ChangesBy(f, a.balanceChanges), codeChanges := ChangesBy(f, a.codeChanges))
  }

  ghost predicate TxsIn(txs: seq<TxTrace>, hi: nat) {
    forall i :: 0 <= i < |txs| ==> TxIn(txs[i], hi)
  }

  ghost predicate BlockIn(a: Block, hi: nat) {
    && TxsIn(a.txs, hi) && AllClosedIn(a.systemCalls, hi)
    && ChangesIn(a.balanceChanges, hi) && ChangesIn(a.codeChanges, hi)
  }

  lemma TxGrows(t: TxTrace, lo: nat, hi: nat)
    requires TxIn(t, lo) && lo <= hi
    ensures TxIn(t, hi)
  {
  }

  lemma BlockGrows(a: Block, lo: nat, hi: nat)
    requires BlockIn(a, lo) && lo <= hi
    ensures BlockIn(a, hi)
  {
    forall i | 0 <= i < |a.txs| ensures TxIn(a.txs[i], hi) {
      TxGrows(a.txs[i], lo, hi);
    }
    hide TxIn;
  }

  /** `r` is `s` with the ordinals renamed by `f` in all that was added to block `b`, namely `a`, and in what is under
      way; from the two counters on, `f` is a shift. */
  ghost predicate Renamed(f: nat -> nat, b: Block, a: Block, s: State, r: State) {
    && s.block == Some(Extended(b, a)) && BlockIn(a, s.ordinal) && WorkIn(s.work, s.ordinal)
    && ShiftsFrom(f, s.ordinal, r.ordinal)
    && r == s.(ordinal := r.ordinal, work := WorkBy(f, s.work), block := Some(Extended(b, BlockBy(f, a))))
  }

  const NOTHING: Block := Block(BlockInfo(0, [], []), [], [], [], [])

  lemma RenamedAtFirst(b: Block, s: State)
    requires s.block == Some(b) && s.work == FRESH
    ensures Renamed(Identity(), b, NOTHING, s, s)
  {
    assert Extended(b, NOTHING) == b && BlockBy(Identity(), NOTHING) == NOTHING;
    assert WorkBy(Identity(), FRESH) == FRESH;
  }

  // ---------------------------------------------------------------- appending to them

  lemma AppendTx(b: Block, a: Block, t: TxTrace)
    ensures AddTx(Extended(b, a), t) == Extended(b, AddTx(a, t))
  {
    assert b.txs + (a.txs + [t]) == (b.txs + a.txs) + [t];
  }

  lemma ExtendTx(f: nat -> nat, b: Block, a: Block, t: TxTrace)
    ensures AddTx(Extended(b, a), t) == Extended(b, AddTx(a, t))
    ensures AddTx(Extended(b, BlockBy(f, a)), TxBy(f, t)) == Extended(b, BlockBy(f, AddTx(a, t)))
  {
    AppendTx(b, a, t);
    AppendTx(b, BlockBy(f, a), TxBy(f, t));
    MapConcat(TxMap(f), a.txs, [t]);
    assert MapSeq(TxMap(f), [t]) == [TxBy(f, t)];
  }

  lemma AppendCalls(b: Block, a: Block, calls: seq<CallRec>)
    ensures AddSystemCalls(Extended(b, a), calls) == Extended(b, AddSystemCalls(a, calls))
  {
    assert b.systemCalls + (a.systemCalls + calls) == (b.systemCalls + a.systemCalls) + calls;
  }

  lemma ExtendCalls(f: nat -> nat, b: Block, a: Block, calls: seq<CallRec>)
    ensures AddSystemCalls(Extended(b, a), calls) == Extended(b, AddSystemCalls(a, calls))
    ensures AddSystemCalls(Extended(b, BlockBy(f, a)), CallsBy(f, calls))
         == Extended(b, BlockBy(f, AddSystemCalls(a, calls)))
  {
    AppendCalls(b, a, calls);
    AppendCalls(b, BlockBy(f, a), CallsBy(f, calls));
    MapConcat(CallBy(f), a.systemCalls, calls);
  }

  lemma AppendChange(b: Block, a: Block, c: Change)
    ensures AddBlockChange(Extended(b, a), c) == Extended(b, AddBlockChange(a, c))
  {
    assert b.balanceChanges + (a.balanceChanges + [c]) == (b.balanceChanges + a.balanceChanges) + [c];
    assert b.codeChanges + (a.codeChanges + [c]) == (b.codeChanges + a.codeChanges) + [c];
  }

  lemma ExtendChange(f: nat -> nat, b: Block, a: Block, c: Change)
    ensures AddBlockChange(Extended(b, a), c) == Extended(b, AddBlockChange(a, c))
    ensures AddBlockChange(Extended(b, BlockBy(f, a)), ChangeBy(f)(c)) == Extended(b, BlockBy(f, AddBlockChange(a, c)))
  {
    AppendChange(b, a, c);
    AppendChange(b, BlockBy(f, a), ChangeBy(f)(c));
    MapConcat(ChangeBy(f), a.balanceChanges, [c]);
    MapConcat(ChangeBy(f), a.codeChanges, [c]);
    assert MapSeq(ChangeBy(f), [c]) == [ChangeBy(f)(c)];
  }

  // ---------------------------------------------------------------- the coordinator's own events

  ghost predicate StaysRenamed(f: nat -> nat, b: Block, inside: bool, lo: nat, r: Result<State>, r': Result<State>) {
    && r.Panic? == r'.Panic?
    && (r.Ok? ==> InProgram(inside, r.value) && r.value.ordinal >= lo
                  && exists a :: Renamed(f, b, a, r.value, r'.value))
  }

  lemma OwnChange(f: nat -> nat, b: Block, a: Block, s: State, r: State, e: TxEvent)
    requires Idle(s) && Renamed(f, b, a, s, r) && e.Changed?
    ensures StaysRenamed(f, b, false, s.ordinal, StepTx(s, e), StepTx(r, e))
  {
    hide Extended, BlockBy, AddBlockChange, WorkBy;
    assert WorkBy(f, FRESH) == FRESH by { FreshBy(f); }
    if BlockLevel(s, e) {
      var c := Change(s.ordinal + 1, e.change);
      ExtendChange(f, b, a, c);
      ChangeIn(a, c, s.ordinal);
      WorkInGrows(s.work, s.ordinal, s.ordinal + 1);
      assert f(s.ordinal + 1) == r.ordinal + 1 && ChangeBy(f)(c) == Change(r.ordinal + 1, e.change);
      assert Renamed(f, b, AddBlockChange(a, c), StepTx(s, e).value, StepTx(r, e).value);
    } else if IsNoOp(e.change) {
      assert StepTx(s, e) == Ok(s) && StepTx(r, e) == Ok(r);
    }
  }

  lemma FreshBy(f: nat -> nat)
    ensures WorkBy(f, FRESH) == FRESH
  {
  }

  lemma ChangeIn(a: Block, c: Change, lo: nat)
    requires BlockIn(a, lo) && c.ordinal == lo + 1
    ensures BlockIn(AddBlockChange(a, c), lo + 1)
  {
    BlockGrows(a, lo, lo + 1);
  }

  lemma OwnStart(f: nat -> nat, b: Block, a: Block, s: State, r: State)
    requires Idle(s) && Renamed(f, b, a, s, r)
    ensures StaysRenamed(f, b, true, s.ordinal, StepSysStart(s), StepSysStart(r))
  {
    hide Extended, BlockBy, BlockIn;
    FreshBy(f);
    var w := FRESH.(trx := Some(SYSTEM_TX));
    assert WorkBy(f, w) == w by { assert f(0) == 0; assert CallsBy(f, []) == []; }
    assert Renamed(f, b, a, StepSysStart(s).value, StepSysStart(r).value);
  }

  lemma OwnInside(f: nat -> nat, b: Block, a: Block, s: State, r: State, e: TxEvent)
    requires Calling(s) && Renamed(f, b, a, s, r)
    ensures StaysRenamed(f, b, true, s.ordinal, StepTx(s, e), StepTx(r, e))
  {
    hide Extended, BlockBy, BlockIn, WorkBy, WorkIn, StepWork;
    var ctx := CtxOf(s);
    StillUnderWay(f, s.work);
    assert f(s.ordinal + 1) == r.ordinal + 1;
    StepBy(f, ctx, s.work, s.ordinal, r.ordinal, e);
    var step := StepWork(ctx, s.work, s.ordinal, e);
    if step.Ok? {
      StepIn(ctx, s.work, s.ordinal, e);
      BlockGrows(a, s.ordinal, step.value.1);
      assert Renamed(f, b, a, StepTx(s, e).value, StepTx(r, e).value);
    }
  }

  lemma StillUnderWay(f: nat -> nat, w: Work)
    ensures WorkBy(f, w).trx.Some? == w.trx.Some?
  {
  }

  lemma OwnEnd(f: nat -> nat, b: Block, a: Block, s: State, r: State)
    requires Calling(s) && Renamed(f, b, a, s, r)
    ensures StaysRenamed(f, b, false, s.ordinal, StepSysEnd(s), StepSysEnd(r))
  {
    hide Extended, BlockBy, Attach, ListsIn, TxsIn, AddSystemCalls;
    FreshBy(f);
    var w := s.work;
    assert HasCallOnlyChanges(ListsBy(f, w.deferred)) == HasCallOnlyChanges(w.deferred);
    var calls := Attach(w.trx.value.calls, w.preimages);
    AttachBy(f, w.trx.value.calls, w.preimages);
    AttachIn(w.trx.value.calls, w.preimages, s.ordinal);
    ExtendCalls(f, b, a, calls);
    CallsIn(a, calls, s.ordinal);
    EmptyIn(s.ordinal);
    assert r.work.trx.value.calls == CallsBy(f, w.trx.value.calls) && r.work.preimages == w.preimages;
    hide BlockIn, CallsBy, ListsBy;
    if StepSysEnd(s).Ok? {
      assert Renamed(f, b, AddSystemCalls(a, calls), StepSysEnd(s).value, StepSysEnd(r).value);
    }
  }

  lemma CallsIn(a: Block, calls: seq<CallRec>, hi: nat)
    requires BlockIn(a, hi) && AllClosedIn(calls, hi)
    ensures BlockIn(AddSystemCalls(a, calls), hi)
  {
  }

  lemma OwnStep(cfg: Config, f: nat -> nat, b: Block, a: Block, inside: bool, s: State, r: State, e: Event)
    requires InProgram(inside, s) && Renamed(f, b, a, s, r) && OwnAllowed(inside, e)
    ensures StaysRenamed(f, b, NextInside(inside, e), s.ordinal, Step(cfg, s, e), Step(cfg, r, e))
  {
    hide StepTx, StepSysStart, StepSysEnd, Renamed, Idle, Calling, StaysRenamed;
    match e
    case SysStart => OwnStart(f, b, a, s, r);
    case SysEnd => OwnEnd(f, b, a, s, r);
    case Tx(e) => if inside { OwnInside(f, b, a, s, r, e); } else { OwnChange(f, b, a, s, r, e); }
  }

  // ---------------------------------------------------------------- one transaction

  lemma TxShifts(f: nat -> nat, lo: nat, o: nat, t: TxTrace, counter: nat)
    requires ShiftsFrom(f, lo, o) && TxIn(t, counter)
    ensures TxBy(f, TxBy(AddBase(lo), t)) == TxBy(AddBase(o), t)
  {
    hide TxBy, TxIn;
    TxCompose(f, AddBase(lo), t);
    TxAgree(Compose(f, AddBase(lo)), AddBase(o), t, counter);
  }

  lemma TxMovesUp(t: TxTrace, lo: nat, hi: nat)
    requires TxIn(t, hi)
    ensures TxIn(TxBy(AddBase(lo), t), lo + hi)
  {
    var calls := CallsBy(AddBase(lo), t.calls);
    forall i | 0 <= i < |calls| ensures ClosedIn(calls[i], lo + hi) {
      assert ClosedIn(t.calls[i], hi);
      ListsMoveUp(t.calls[i].lists, lo, hi);
    }
  }

  lemma ListsMoveUp(l: Lists, lo: nat, hi: nat)
    requires ListsIn(l, hi)
    ensures ListsIn(ListsBy(AddBase(lo), l), lo + hi)
  {
  }

  lemma KeptWhole(f: nat -> nat, b: Block, a: Block, s: State, r: State, t: TxTrace, counter: nat)
    requires Idle(s) && Renamed(f, b, a, s, r) && EndsAt(t, counter)
    ensures var s1, r1 := Committed(s, t), r.(ordinal := r.ordinal + counter,
                                               block := Some(AddTx(r.block.value, TxBy(AddBase(r.ordinal), t))));
      Idle(s1) && s1.ordinal == s.ordinal + counter && Renamed(f, b, AddTx(a, TxBy(AddBase(s.ordinal), t)), s1, r1)
  {
    hide Extended, BlockBy, ShiftsFrom, TxIn, WorkBy;
    var rebased := TxBy(AddBase(s.ordinal), t);
    assert rebased.endOrdinal == s.ordinal + counter;
    hide TxBy;
    TxShifts(f, s.ordinal, r.ordinal, t, counter);
    TxMovesUp(t, s.ordinal, counter);
    ExtendTx(f, b, a, rebased);
    BlockGrows(a, s.ordinal, s.ordinal + counter);
    WorkInGrows(s.work, s.ordinal, s.ordinal + counter);
    StillShifts(f, s.ordinal, r.ordinal, counter);
  }

  lemma StillShifts(f: nat -> nat, lo: nat, o: nat, more: nat)
    requires ShiftsFrom(f, lo, o)
    ensures ShiftsFrom(f, lo + more, o + more)
  {
  }

  /** The renaming once a dropped transaction has used up `more` ordinals above `lo`. */
  function Raised(f: nat -> nat, lo: nat, o: nat, more: nat): nat -> nat
    requires lo <= o
  {
    (x: nat) => if x <= lo then f(x) else x + (o - lo) + more
  }

  lemma RaisedShifts(f: nat -> nat, lo: nat, o: nat, more: nat)
    requires ShiftsFrom(f, lo, o)
    ensures var g := Raised(f, lo, o, more); ShiftsFrom(g, lo, o + more) && Agree(f, g, lo) && g(0) == f(0)
  {
    var g := Raised(f, lo, o, more);
    forall x: nat, y: nat | x < y ensures g(x) < g(y) {
      if x <= lo < y {
        assert f(x) < f(lo + 1) == o + 1;
      }
    }
  }

  lemma BlockAgrees(f: nat -> nat, g: nat -> nat, a: Block, hi: nat)
    requires Agree(f, g, hi) && BlockIn(a, hi)
    ensures BlockBy(f, a) == BlockBy(g, a)
  {
    hide TxBy, TxIn, ListsBy, CallsBy;
    forall i | 0 <= i < |a.txs| ensures TxBy(f, a.txs[i]) == TxBy(g, a.txs[i]) {
      TxAgree(f, g, a.txs[i], hi);
    }
    assert MapSeq(TxMap(f), a.txs) == MapSeq(TxMap(g), a.txs);
    CallsAgree(f, g, a.systemCalls, hi);
    assert ChangesBy(f, a.balanceChanges) == ChangesBy(g, a.balanceChanges);
    assert ChangesBy(f, a.codeChanges) == ChangesBy(g, a.codeChanges);
  }

  lemma DroppedWhole(f: nat -> nat, b: Block, a: Block, s: State, r: State, used: nat)
    requires Idle(s) && Renamed(f, b, a, s, r)
    ensures Renamed(Raised(f, s.ordinal, r.ordinal, used), b, a, s, r.(ordinal := r.ordinal + used))
  {
    hide Extended, BlockBy, BlockIn, ShiftsFrom, WorkBy, WorkIn, Agree;
    RenamedIdle(f, b, a, s, r);
    var g := Raised(f, s.ordinal, r.ordinal, used);
    RaisedShifts(f, s.ordinal, r.ordinal, used);
    BlockAgrees(f, g, a, s.ordinal);
    FreshBy(f);
    FreshBy(g);
  }

  /** A transaction traced on one coordinator and committed to the other. */
  lemma WholeStep(cfg: Config, f: nat -> nat, b: Block, a: Block, s: State, r: State, st: Stream)
      returns (g: nat -> nat)
    requires Idle(s) && Renamed(f, b, a, s, r)
    ensures var c, q := MergeOne(cfg, s, Whole(st)), Run(cfg, r, EventsOf(st));
      && StaysRenamed(g, b, false, s.ordinal, c, q)
      && (if IsDropped(cfg, st) then q.Ok? ==> q.value.ordinal - c.value.ordinal > r.ordinal - s.ordinal else g == f)
    ensures forall x: nat :: x <= s.ordinal ==> g(x) == f(x)
  {
    hide Run, Trace, Renamed, TxBy, EventsOf;
    g := f;
    RenamedIdle(f, b, a, s, r);
    CoordinatorRun(cfg, r, st);
    TraceShifts(cfg, s.prague, st, r.ordinal);
    TraceIn(cfg, s.prague, st, 0);
    var t := Trace(cfg, s.prague, st, 0);
    if t.Ok? {
      if t.value.trx.Some? {
        KeptWhole(f, b, a, s, r, t.value.trx.value, t.value.counter);
      } else {
        DroppedWhole(f, b, a, s, r, t.value.counter);
        g := Raised(f, s.ordinal, r.ordinal, t.value.counter);
      }
    }
  }

  lemma RenamedIdle(f: nat -> nat, b: Block, a: Block, s: State, r: State)
    requires Renamed(f, b, a, s, r) && Idle(s)
    ensures Idle(r) && r.prague == s.prague && s.ordinal <= r.ordinal
  {
    hide BlockIn, BlockBy, Extended;
    FreshBy(f);
  }

  // ---------------------------------------------------------------- a whole program

  /** One item on both coordinators. */
  lemma ItemStep(cfg: Config, f: nat -> nat, b: Block, a: Block, inside: bool, s: State, r: State, item: Item)
      returns (g: nat -> nat)
    requires InProgram(inside, s) && Renamed(f, b, a, s, r) && ItemAllowed(inside, item)
    ensures var c, q := MergeOne(cfg, s, item), Run(cfg, r, ItemEvents(item));
      && StaysRenamed(g, b, InsideAfter(inside, item), s.ordinal, c, q)
      && (q.Ok? ==> q.value.ordinal - c.value.ordinal >= r.ordinal - s.ordinal)
      && (q.Ok? && ItemDropped(cfg, item) ==> q.value.ordinal - c.value.ordinal > r.ordinal - s.ordinal)
      && (!ItemDropped(cfg, item) ==> g == f)
    ensures forall x: nat :: x <= s.ordinal ==> g(x) == f(x)
  {
    hide Step, Renamed;
    g := f;
    if item.Own? {
      OwnStep(cfg, f, b, a, inside, s, r, item.e);
      assert Run(cfg, r, [item.e]) == Step(cfg, r, item.e) by { OneEvent(cfg, r, item.e); }
    } else {
      g := WholeStep(cfg, f, b, a, s, r, item.st);
    }
    var c, q := MergeOne(cfg, s, item), Run(cfg, r, ItemEvents(item));
    if q.Ok? && !ItemDropped(cfg, item) {
      var a1 :| Renamed(f, b, a1, c.value, q.value);
      SameGap(f, b, a, s, r, a1, c.value, q.value);
    }
  }

  lemma SameGap(f: nat -> nat, b: Block, a: Block, s: State, r: State, a1: Block, c: State, q: State)
    requires Renamed(f, b, a, s, r) && Renamed(f, b, a1, c, q) && s.ordinal <= c.ordinal
    ensures q.ordinal - c.ordinal == r.ordinal - s.ordinal
  {
    hide Extended, BlockBy, BlockIn, WorkBy, WorkIn;
    assert f(c.ordinal + 1) == q.ordinal + 1;
  }

  lemma OneEvent(cfg: Config, s: State, e: Event)
    ensures Run(cfg, s, [e]) == Step(cfg, s, e)
  {
    hide Step;
    var r := Step(cfg, s, e);
    assert [e][1..] == [];
  }

  /** `q` is `c` with its ordinals renamed by `g` in all that was added to `b`; the counters are no closer than
      before. */
  ghost predicate EndsRenamed(g: nat -> nat, b: Block, gap: int, c: Result<State>, q: Result<State>) {
    && c.Panic? == q.Panic?
    && (q.Ok? ==> q.value.ordinal - c.value.ordinal >= gap && exists a :: Renamed(g, b, a, c.value, q.value))
  }

  lemma {:induction false} ProgramsCompared(cfg: Config, f: nat -> nat, b: Block, a: Block, inside: bool, s: State,
                                            r: State, items: seq<Item>) returns (g: nat -> nat)
    requires InProgram(inside, s) && Renamed(f, b, a, s, r) && IsProgram(inside, items)
    ensures var c, q := Merged(cfg, s, items), Run(cfg, r, AllEvents(items));
      && EndsRenamed(g, b, r.ordinal - s.ordinal, c, q)
      && (if SomeDropped(cfg, items) then q.Ok? ==> q.value.ordinal - c.value.ordinal > r.ordinal - s.ordinal
          else g == f)
    ensures forall x: nat :: x <= s.ordinal ==> g(x) == f(x)
    decreases |items|
  {
    hide Run, MergeOne, Renamed, InProgram, ItemAllowed, ItemEvents, ItemDropped;
    g := f;
    if |items| == 0 {
      NoEvents(cfg, r);
    } else {
      var item, rest := items[0], items[1..];
      RunConcat(cfg, r, ItemEvents(item), AllEvents(rest));
      g := ItemStep(cfg, f, b, a, inside, s, r, item);
      DroppedFirst(cfg, items);
      var c, q := MergeOne(cfg, s, item), Run(cfg, r, ItemEvents(item));
      if q.Ok? {
        var a1 :| Renamed(g, b, a1, c.value, q.value);
        g := ProgramsCompared(cfg, g, b, a1, InsideAfter(inside, item), c.value, q.value, rest);
      }
    }
  }

  lemma DroppedFirst(cfg: Config, items: seq<Item>)
    requires |items| > 0
    ensures SomeDropped(cfg, items) <==> ItemDropped(cfg, items[0]) || SomeDropped(cfg, items[1..])
  {
    hide ItemDropped;
    assert items == [items[0]] + items[1..];
    if SomeDropped(cfg, items) && !ItemDropped(cfg, items[0]) {
      var i :| 0 <= i < |items| && ItemDropped(cfg, items[i]);
      assert ItemDropped(cfg, items[1..][i - 1]);
    }
    if i :| 0 <= i < |items[1..]| && ItemDropped(cfg, items[1..][i]) {
      assert ItemDropped(cfg, items[i + 1]);
    }
  }

  lemma NoEvents(cfg: Config, s: State)
    ensures Run(cfg, s, []) == Ok(s)
  {
  }

  lemma IdentityBy(b: Block, a: Block, s: State, r: State)
    requires Renamed(Identity(), b, a, s, r)
    ensures r == s
  {
    var f := Identity();
    assert f(s.ordinal + 1) == s.ordinal + 1;
    assert forall x: nat :: x <= s.ordinal ==> f(x) == x;
    WorkFixed(f, s.work, s.ordinal);
    BlockFixed(f, a, s.ordinal);
    hide BlockBy, WorkBy, BlockIn, WorkIn;
  }

  lemma BlockFixed(f: nat -> nat, a: Block, hi: nat)
    requires BlockIn(a, hi) && forall x: nat :: x <= hi ==> f(x) == x
    ensures BlockBy(f, a) == a
  {
    hide TxIn, ListsIn;
    forall i | 0 <= i < |a.txs| ensures TxBy(f, a.txs[i]) == a.txs[i] {
      TxFixed(f, a.txs[i], hi);
    }
    assert MapSeq(TxMap(f), a.txs) == a.txs;
    CallsFixed(f, a.systemCalls, hi);
    ChangesFixed(f, a.balanceChanges, hi);
    ChangesFixed(f, a.codeChanges, hi);
  }

  lemma CallsFixed(f: nat -> nat, calls: seq<CallRec>, hi: nat)
    requires AllClosedIn(calls, hi) && forall x: nat :: x <= hi ==> f(x) == x
    ensures CallsBy(f, calls) == calls
  {
    forall i | 0 <= i < |calls| ensures CallBy(f)(calls[i]) == calls[i] {
      assert ClosedIn(calls[i], hi);
      ListsFixed(f, calls[i].lists, hi);
    }
  }

  lemma TxFixed(f: nat -> nat, t: TxTrace, hi: nat)
    requires TxIn(t, hi) && forall x: nat :: x <= hi ==> f(x) == x
    ensures TxBy(f, t) == t
  {
    CallsFixed(f, t.calls, hi);
    if t.receipt.Some? {
      assert MapSeq(ReceiptLogBy(f), t.receipt.value.logs) == t.receipt.value.logs;
    }
  }

  /** Doing everything on the coordinator, and committing transactions traced from zero while the coordinator goes on
      with its own changes and system calls, panic together; otherwise what one adds to the block is what the other
      adds, with its ordinals renamed in an order-keeping way that fixes those used before, and the two end in the same
      state if and only if no transaction is dropped. */
  lemma SequentialEqualsMerged(cfg: Config, s: State, items: seq<Item>) returns (f: nat -> nat)
    requires Idle(s) && IsProgram(false, items)
    ensures var c, q := Merged(cfg, s, items), Run(cfg, s, AllEvents(items));
      && EndsRenamed(f, s.block.value, 0, c, q)
      && (q.Ok? ==> (c == q <==> !SomeDropped(cfg, items)))
    ensures forall x: nat :: x <= s.ordinal ==> f(x) == x
  {
    hide Run, Merged, IsProgram, SomeDropped, Renamed;
    RenamedAtFirst(s.block.value, s);
    f := ProgramsCompared(cfg, Identity(), s.block.value, NOTHING, false, s, s, items);
    var c, q := Merged(cfg, s, items), Run(cfg, s, AllEvents(items));
    if q.Ok? && !SomeDropped(cfg, items) {
      var a :| Renamed(f, s.block.value, a, c.value, q.value);
      IdentityBy(s.block.value, a, c.value, q.value);
    }
  }
}
