/** The events of one transaction, traced from any ordinal, on the coordinator or on an isolated tracer. Tracing
    from one ordinal is tracing from another with the difference added. */
module Streams {
  import opened Bytes
  import opened Wrappers
  import opened Model
  import opened Completion
  import opened Machine
  import opened Relabel
  import opened Ranges
  import opened World

  /** The events of one transaction: any body, well nested or not. */
  datatype Stream = Stream(tx: TxInfo, signers: seq<(Bytes, nat)>, reader: bool, body: seq<TxEvent>,
                           receipt: Option<Receipt>)

  function EventsOf(st: Stream): seq<Event> {
    [TxStart(st.tx, st.signers, st.reader)] + Txs(st.body) + [TxEnd(st.receipt)]
  }

  predicate IsDropped(cfg: Config, st: Stream) { st.receipt.None? && cfg.dropWithoutReceipt }

  /** A coordinator between two transactions of a block. */
  ghost predicate Idle(s: State) {
    && s.block.Some? && s.work == FRESH && !s.inSystemCall && s.saved.None? && !s.genesis
    && !s.isolated && !s.ended && !s.dropped
  }

  // ---------------------------------------------------------------- one transaction, from any ordinal

  /** A finished transaction, `None` when it was dropped, and the counter after it. */
  datatype Traced = Traced(trx: Option<TxTrace>, counter: nat)

  function FirstWork(st: Stream, base: nat): Work {
    FRESH.(trx := Some(NewTx(st.tx, AuthsOf(st.signers), base + 1)), reader := st.reader)
  }

  /** The transaction traced with the counter at `base`. */
  ghost function Trace(cfg: Config, prague: bool, st: Stream, base: nat): Result<Traced> {
    var r :- RunWork(Ctx(true, prague, false, false), FirstWork(st, base), base + 1, st.body);
    if IsDropped(cfg, st) || r.0.trx.None? then Ok(Traced(None, r.1))
    else
      var done :- Complete(cfg, r.0.trx.value, r.0.deferred, r.0.preimages, st.receipt, r.1 + 1);
      Ok(Traced(Some(done), r.1 + 1))
  }

  function ShiftBy(base: nat): nat -> nat { (x: nat) => if x == 0 then 0 else x + base }

  lemma CompleteEnds(cfg: Config, trx: TxTrace, leftover: Lists, recorded: seq<Recorded>, receipt: Option<Receipt>,
                     end: nat)
    ensures var r := Complete(cfg, trx, leftover, recorded, receipt, end); r.Ok? ==> r.value.endOrdinal == end
  {
    hide SettledCalls, PairLogs, ArrangedCalls, CheckedAuths, ReceiptBefore;
  }

  ghost predicate EndsAt(trx: TxTrace, counter: nat) {
    TxIn(trx, counter) && trx.endOrdinal == counter
  }

  /** A trace has all its ordinals in 1..counter. */
  lemma TraceIn(cfg: Config, prague: bool, st: Stream, base: nat)
    ensures var t := Trace(cfg, prague, st, base);
      t.Ok? ==> t.value.counter > base && (t.value.trx.Some? ==> EndsAt(t.value.trx.value, t.value.counter))
    ensures var t := Trace(cfg, prague, st, base); t.Ok? ==> (t.value.trx.None? <==> IsDropped(cfg, st))
  {
    hide Complete, TxIn;
    var ctx := Ctx(true, prague, false, false);
    assert WorkIn(FirstWork(st, base), base + 1);
    var r := RunWork(ctx, FirstWork(st, base), base + 1, st.body);
    if r.Ok? {
      RunIn(ctx, FirstWork(st, base), base + 1, st.body);
      var w := r.value.0;
      if !IsDropped(cfg, st) {
        CompleteIn(cfg, w.trx.value, w.deferred, w.preimages, st.receipt, r.value.1);
        CompleteEnds(cfg, w.trx.value, w.deferred, w.preimages, st.receipt, r.value.1 + 1);
      }
    }
  }

  function TracedBy(f: nat -> nat, base: nat, t: Traced): Traced {
    Traced(if t.trx.None? then None else Some(TxBy(f, t.trx.value)), t.counter + base)
  }

  /** The key fact: tracing from ordinal `base` is tracing from zero with `base` added to every ordinal. */
  lemma TraceShifts(cfg: Config, prague: bool, st: Stream, base: nat)
    ensures Trace(cfg, prague, st, base)
         == match Trace(cfg, prague, st, 0) case Panic => Panic case Ok(t) => Ok(TracedBy(AddBase(base), base, t))
  {
    hide Complete, WorkBy, TxBy, TxIn, RunWork, FirstWork, ListsBy;
    var ctx, f := Ctx(true, prague, false, false), ShiftBy(base);
    assert ShiftsFrom(f, 1, base + 1);
    FirstWorkShifts(st, base);
    RunBy(f, ctx, FirstWork(st, 0), 1, base + 1, st.body);
    var r := RunWork(ctx, FirstWork(st, 0), 1, st.body);
    if r.Ok? {
      var w := r.value.0;
      WorkShifts(f, w);
      if w.trx.Some? && !IsDropped(cfg, st) {
        CompleteBy(cfg, f, w.trx.value, w.deferred, w.preimages, st.receipt, r.value.1 + 1);
        TraceIn(cfg, prague, st, 0);
        var t := Trace(cfg, prague, st, 0);
        if t.Ok? {
          TxAgree(f, AddBase(base), t.value.trx.value, t.value.counter);
        }
      }
    }
  }

  lemma FirstWorkShifts(st: Stream, base: nat)
    ensures WorkBy(ShiftBy(base), FirstWork(st, 0)) == FirstWork(st, base)
  {
  }

  lemma WorkShifts(f: nat -> nat, w: Work)
    ensures var w' := WorkBy(f, w);
      && w'.deferred == ListsBy(f, w.deferred) && w'.preimages == w.preimages
      && w'.trx == if w.trx.None? then None else Some(TxBy(f, w.trx.value))
  {
  }

  // ---------------------------------------------------------------- on the coordinator and on an isolated tracer

  ghost function Sequential(cfg: Config, s: State, t: Result<Traced>): Result<State>
    requires s.block.Some?
  {
    match t
    case Panic => Panic
    case Ok(t) => Ok(s.(ordinal := t.counter,
                        block := if t.trx.None? then s.block else Some(AddTx(s.block.value, t.trx.value))))
  }

  /** A stream on a tracer with nothing in progress, but maybe with preimages left over. */
  lemma StreamRun(cfg: Config, s: State, st: Stream)
    requires s.block.Some? && s.work == FRESH.(preimages := s.work.preimages) && !s.inSystemCall && !s.genesis
    ensures Run(cfg, s, EventsOf(st))
         == match RunWork(Ctx(true, s.prague, false, false), FirstWork(st, s.ordinal).(preimages := s.work.preimages),
                          s.ordinal + 1, st.body)
            case Panic => Panic
            case Ok(r) => StepTxEnd(cfg, s.(work := r.0, ordinal := r.1), st.receipt)
  {
    hide StepTxEnd, RunWork;
    var start, body, end := [TxStart(st.tx, st.signers, st.reader)], Txs(st.body), [TxEnd(st.receipt)];
    var s1 := s.(work := FirstWork(st, s.ordinal).(preimages := s.work.preimages), ordinal := s.ordinal + 1);
    assert Run(cfg, s, start) == Ok(s1) by {
      assert Run(cfg, s1, start[1..]) == Ok(s1);
    }
    RunConcat(cfg, s, start, body + end);
    assert start + (body + end) == EventsOf(st);
    RunConcat(cfg, s1, body, end);
    RunTxs(cfg, s1, st.body);
    var r := RunWork(CtxOf(s1), s1.work, s1.ordinal, st.body);
    if r.Ok? {
      var s2 := s1.(work := r.value.0, ordinal := r.value.1);
      var last := StepTxEnd(cfg, s2, st.receipt);
      assert Step(cfg, s2, end[0]) == last;
      if last.Ok? {
        assert Run(cfg, last.value, end[1..]) == last;
      }
    }
  }

  /** A stream on the coordinator appends its trace from the current counter. */
  lemma CoordinatorRun(cfg: Config, s: State, st: Stream)
    requires Idle(s)
    ensures Run(cfg, s, EventsOf(st)) == Sequential(cfg, s, Trace(cfg, s.prague, st, s.ordinal))
  {
    hide RunWork, Complete;
    StreamRun(cfg, s, st);
    TraceIn(cfg, s.prague, st, s.ordinal);
    var r := RunWork(Ctx(true, s.prague, false, false), FirstWork(st, s.ordinal), s.ordinal + 1, st.body);
    if r.Ok? {
      RunIn(Ctx(true, s.prague, false, false), FirstWork(st, s.ordinal), s.ordinal + 1, st.body);
    }
  }

  /** A stream on a spawned tracer ends holding its trace from zero, or marked as dropped. */
  lemma IsolatedRun(cfg: Config, s: State, st: Stream)
    requires s.block.Some?
    ensures var r, t := Run(cfg, Spawned(s), EventsOf(st)), Trace(cfg, s.prague, st, 0);
      && r.Panic? == t.Panic?
      && (r.Ok? ==> r.value.dropped == t.value.trx.None? && r.value.ended == t.value.trx.Some?
                    && (t.value.trx.Some? ==> r.value.work.trx == t.value.trx))
  {
    hide RunWork, Complete;
    var iso := Spawned(s);
    StreamRun(cfg, iso, st);
    TraceIn(cfg, s.prague, st, 0);
    var r := RunWork(Ctx(true, s.prague, false, false), FirstWork(st, 0), 1, st.body);
    if r.Ok? {
      RunIn(Ctx(true, s.prague, false, false), FirstWork(st, 0), 1, st.body);
    }
  }
}
