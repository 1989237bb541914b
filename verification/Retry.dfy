/** Retrying transactions on isolated tracers (tracer.go:1015-1042). Parallel tracing with retries equals sequential
    tracing as long as what is abandoned before a tracer's last reset leaves no preimage over, which the events
    tell: a recorded preimage is used up when its transaction, or a later attempt with a call, is completed. */
module Retry {
  import opened Wrappers
  import opened Model
  import opened Machine
  import opened World
  import opened Streams
  import opened Programs
  import opened Parallel
  import opened LeftPreimages

  // ---------------------------------------------------------------- attempts in a schedule

  /** Tracer `id` is reset later. */
  predicate Doomed(actions: seq<Action>, id: nat) {
    OnIso(id, TxReset) in actions
  }

  predicate Abandoned(a: Action, rest: seq<Action>) {
    a.OnIso? && (a.e.TxReset? || Doomed(rest, a.id))
  }

  /** The schedule without resets and without what they undo. */
  function Erase(actions: seq<Action>): seq<Action> {
    if |actions| == 0 then []
    else (if Abandoned(actions[0], actions[1..]) then [] else [actions[0]]) + Erase(actions[1..])
  }

  /** What the events so far tell of each tracer. */
  type Marks = map<nat, Mark>

  function MarkAt(marks: Marks, id: nat): Mark { if id in marks then marks[id] else UNTOUCHED }

  function NextMarks(cfg: Config, marks: Marks, a: Action): Marks {
    if a.OnIso? then marks[a.id := NextMark(cfg, MarkAt(marks, a.id), a.e)] else marks
  }

  /** What is abandoned are beginnings of transactions, with resets in between; at a tracer's last reset no preimage is
      left over. No tracer is reset after its commit, and the coordinator stays in its block. */
  predicate AllowedAttempt(marks: Marks, a: Action, rest: seq<Action>) {
    match a
    case Coord(e) => !e.BlockStart? && !e.BlockEnd?
    case Spawn(_) => true
    case OnIso(id, e) =>
      && (Abandoned(a, rest) ==> AttemptEvent(MarkAt(marks, id), e))
      && (e.TxReset? && !Doomed(rest, id) ==> !MarkAt(marks, id).recorded)
    case Commit(id) => !Doomed(rest, id)
  }

  predicate Retries(cfg: Config, marks: Marks, actions: seq<Action>)
    decreases |actions|
  {
    |actions| > 0 ==>
      && AllowedAttempt(marks, actions[0], actions[1..])
      && Retries(cfg, NextMarks(cfg, marks, actions[0]), actions[1..])
  }

  /** No abandoned event panics. */
  ghost predicate AttemptsGoThrough(cfg: Config, w: World, actions: seq<Action>)
    decreases |actions|
  {
    |actions| > 0 ==>
      var r := StepWorld(cfg, w, actions[0]);
      if r.Panic? then !Abandoned(actions[0], actions[1..]) else AttemptsGoThrough(cfg, r.value, actions[1..])
  }

  // ---------------------------------------------------------------- the schedule with and without its attempts

  /** `i` is in an attempt that will be reset, `j` has not begun. */
  ghost predicate Attempting(m: Mark, i: State, j: State) { Marked(m, i) && SameButItsBlock(Reset(i), j) }

  ghost predicate ErasedTracer(doomed: bool, m: Mark, i: State, j: State) {
    if doomed then Attempting(m, i, j) else SameButItsBlock(i, j)
  }

  /** World `v` is what `w` would be without the attempts that `actions` will reset. */
  ghost predicate Erased(marks: Marks, actions: seq<Action>, w: World, v: World) {
    && w.coord == v.coord && w.iso.Keys == v.iso.Keys && marks.Keys <= w.iso.Keys
    && forall id :: id in w.iso ==> ErasedTracer(Doomed(actions, id), MarkAt(marks, id), w.iso[id], v.iso[id])
  }

  lemma DoomedNext(actions: seq<Action>, id: nat)
    requires |actions| > 0
    ensures Doomed(actions, id) <==> actions[0] == OnIso(id, TxReset) || Doomed(actions[1..], id)
  {
    assert actions == [actions[0]] + actions[1..];
  }

  lemma AbandonedEvent(cfg: Config, block: Option<Block>, m: Mark, i: State, j: State, e: Event, doomed: bool)
    requires Attempting(m, i, j) && AttemptEvent(m, e) && Step(cfg, i.(block := block), e).Ok?
    requires !doomed ==> e.TxReset? && !m.recorded
    ensures var r := Step(cfg, i.(block := block), e).value;
      r.block == block && ErasedTracer(doomed, NextMark(cfg, m, e), r, j)
  {
    hide Step, NextMark, AttemptEvent;
    var at := i.(block := block);
    MarkStep(cfg, m, at, e);
    assert Reset(at).(block := None) == Reset(i).(block := None);
    if !doomed {
      ResetOf(cfg, at);
    }
  }

  lemma ResetOf(cfg: Config, i: State)
    requires i.isolated && i.work.preimages == []
    ensures Step(cfg, i, TxReset) == Ok(Reset(i))
  {
  }

  /** An abandoned event leaves the erased world where it is. */
  lemma AbandonedStep(cfg: Config, marks: Marks, actions: seq<Action>, w: World, v: World)
    requires |actions| > 0 && Erased(marks, actions, w, v) && Abandoned(actions[0], actions[1..])
    requires AllowedAttempt(marks, actions[0], actions[1..]) && StepWorld(cfg, w, actions[0]).Ok?
    ensures Erased(NextMarks(cfg, marks, actions[0]), actions[1..], StepWorld(cfg, w, actions[0]).value, v)
  {
    hide Step, Doomed, Attempting, SameButItsBlock, NextMark, AttemptEvent;
    var id, e := actions[0].id, actions[0].e;
    forall k: nat { DoomedNext(actions, k); }
    assert Doomed(actions, id);
    AbandonedEvent(cfg, w.coord.block, MarkAt(marks, id), w.iso[id], v.iso[id], e, Doomed(actions[1..], id));
    assert w.coord.(block := w.coord.block) == w.coord;
    hide ErasedTracer;
  }

  lemma KeptSpawn(marks: Marks, actions: seq<Action>, w: World, v: World, id: nat)
    requires |actions| > 0 && Erased(marks, actions, w, v) && actions[0] == Spawn(id) && w.coord.block.Some?
             && id !in w.iso
    ensures var i := Spawned(w.coord);
      Erased(marks, actions[1..], w.(iso := w.iso[id := i]), v.(iso := v.iso[id := i]))
  {
    hide Doomed;
    forall k: nat { DoomedNext(actions, k); }
    assert Reset(Spawned(w.coord)) == Spawned(w.coord) && Marked(UNTOUCHED, Spawned(w.coord));
    assert ErasedTracer(Doomed(actions[1..], id), MarkAt(marks, id), Spawned(w.coord), Spawned(w.coord));
    hide ErasedTracer;
  }

  lemma KeptCommit(marks: Marks, actions: seq<Action>, w: World, v: World, id: nat)
    requires |actions| > 0 && Erased(marks, actions, w, v) && actions[0] == Commit(id) && id in w.iso
    requires !Doomed(actions[1..], id)
    ensures var r, r' := StepCommit(w, id), StepCommit(v, id);
      r.Panic? == r'.Panic? && (r.Ok? ==> Erased(marks, actions[1..], r.value, r'.value))
  {
    hide Doomed, StepCommit, Attempting, SameButItsBlock;
    forall k: nat { DoomedNext(actions, k); }
    SameCommit(w, v, id);
    var r, r' := StepCommit(w, id), StepCommit(v, id);
    if r.Ok? {
      assert ErasedTracer(false, MarkAt(marks, id), r.value.iso[id], r'.value.iso[id]);
      hide ErasedTracer;
    }
  }

  lemma SameTracerMoves(cfg: Config, marks: Marks, actions: seq<Action>, w: World, v: World, id: nat,
                        e: Event, c: State, i: State)
    requires |actions| > 0 && Erased(marks, actions, w, v) && actions[0] == OnIso(id, e) && id in w.iso
    requires !e.TxReset? && !Doomed(actions[1..], id)
    ensures Erased(NextMarks(cfg, marks, actions[0]), actions[1..], World(c, w.iso[id := i]), World(c, v.iso[id := i]))
  {
    hide Doomed, Attempting, NextMark;
    forall k: nat { DoomedNext(actions, k); }
    assert ErasedTracer(false, MarkAt(NextMarks(cfg, marks, actions[0]), id), i, i);
    hide ErasedTracer;
  }

  lemma KeptEvent(cfg: Config, marks: Marks, actions: seq<Action>, w: World, v: World, id: nat, e: Event)
    requires |actions| > 0 && Erased(marks, actions, w, v) && actions[0] == OnIso(id, e) && id in w.iso
    requires !e.TxReset? && !Doomed(actions[1..], id)
    ensures var r, r' := StepWorld(cfg, w, actions[0]), StepWorld(cfg, v, actions[0]);
      r.Panic? == r'.Panic? && (r.Ok? ==> Erased(NextMarks(cfg, marks, actions[0]), actions[1..], r.value, r'.value))
  {
    hide Step, Doomed, Attempting;
    DoomedNext(actions, id);
    assert SameButItsBlock(w.iso[id], v.iso[id]);
    var at := w.iso[id].(block := w.coord.block);
    SameInBlock(w.iso[id], v.iso[id], w.coord.block);
    hide ErasedTracer, SameButItsBlock;
    var r := Step(cfg, at, e);
    if r.Ok? {
      SameTracerMoves(cfg, marks, actions, w, v, id, e, w.coord.(block := r.value.block), r.value);
    }
    hide Erased;
  }

  lemma KeptCoord(cfg: Config, marks: Marks, actions: seq<Action>, w: World, v: World, e: Event)
    requires |actions| > 0 && Erased(marks, actions, w, v) && actions[0] == Coord(e) && !e.BlockStart? && !e.BlockEnd?
    ensures var r, r' := StepWorld(cfg, w, actions[0]), StepWorld(cfg, v, actions[0]);
      r.Panic? == r'.Panic? && (r.Ok? ==> Erased(marks, actions[1..], r.value, r'.value))
  {
    hide Step, Doomed, ErasedTracer;
    forall k: nat { DoomedNext(actions, k); }
  }

  /** Any other step is the same step in both worlds. */
  lemma KeptStep(cfg: Config, marks: Marks, actions: seq<Action>, w: World, v: World)
    requires |actions| > 0 && Erased(marks, actions, w, v) && !Abandoned(actions[0], actions[1..])
    requires AllowedAttempt(marks, actions[0], actions[1..])
    ensures var r, r' := StepWorld(cfg, w, actions[0]), StepWorld(cfg, v, actions[0]);
      && r.Panic? == r'.Panic?
      && (r.Ok? ==> Erased(NextMarks(cfg, marks, actions[0]), actions[1..], r.value, r'.value))
  {
    hide Step, Doomed, ErasedTracer, StepCommit, Spawned;
    match actions[0]
    case Coord(e) => KeptCoord(cfg, marks, actions, w, v, e);
    case Spawn(id) =>
      if w.coord.block.Some? && id !in w.iso {
        KeptSpawn(marks, actions, w, v, id);
      }
    case OnIso(id, e) =>
      if id in w.iso {
        KeptEvent(cfg, marks, actions, w, v, id, e);
      }
    case Commit(id) =>
      if id in w.iso {
        KeptCommit(marks, actions, w, v, id);
      }
  }

  lemma {:induction false} EraseRun(cfg: Config, marks: Marks, actions: seq<Action>, w: World, v: World)
    requires Retries(cfg, marks, actions) && AttemptsGoThrough(cfg, w, actions) && Erased(marks, actions, w, v)
    ensures var r, r' := RunWorld(cfg, w, actions), RunWorld(cfg, v, Erase(actions));
      r.Panic? == r'.Panic? && (r.Ok? ==> r.value.coord == r'.value.coord)
    decreases |actions|
  {
    hide StepWorld, Abandoned, AllowedAttempt, NextMarks;
    if |actions| > 0 {
      var a, rest := actions[0], actions[1..];
      var r := StepWorld(cfg, w, a);
      if Abandoned(a, rest) {
        AbandonedStep(cfg, marks, actions, w, v);
        assert Erase(actions) == Erase(rest);
        EraseRun(cfg, NextMarks(cfg, marks, a), rest, r.value, v);
      } else {
        KeptStep(cfg, marks, actions, w, v);
        assert Erase(actions)[1..] == Erase(rest);
        if r.Ok? {
          EraseRun(cfg, NextMarks(cfg, marks, a), rest, r.value, StepWorld(cfg, v, a).value);
        }
      }
    }
  }

  /** Retries are invisible. Isolated tracers may be reset any number of times, whatever transactions they had begun
      or even ended: when no abandoned event panics and no preimage is left over at a tracer's last reset, committing
      what is traced after the resets equals doing everything on the coordinator. */
  lemma RetriesInvisible(cfg: Config, s: State, items: seq<Item>, actions: seq<Action>) returns (f: nat -> nat)
    requires Idle(s) && IsProgram(false, items) && Schedules(items, Progress(map[], 0), Erase(actions))
    requires Retries(cfg, map[], actions) && AttemptsGoThrough(cfg, World(s, map[]), actions)
    ensures var p, q := RunWorld(cfg, World(s, map[]), actions), Run(cfg, s, AllEvents(items));
      && p.Panic? == q.Panic?
      && (p.Ok? ==> EndsRenamed(f, s.block.value, 0, Ok(p.value.coord), q)
                    && (p.value.coord == q.value <==> !SomeDropped(cfg, items)))
    ensures forall x: nat :: x <= s.ordinal ==> f(x) == x
  {
    hide Run, RunWorld, AllEvents, SomeDropped, Schedules, Retries, AttemptsGoThrough, Erase, EndsRenamed;
    EraseRun(cfg, map[], actions, World(s, map[]), World(s, map[]));
    f := ParallelEqualsSequential(cfg, s, items, Erase(actions));
  }
}
