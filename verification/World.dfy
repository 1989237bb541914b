/** A coordinator together with the isolated tracers it spawned within one block (tracer.go:913-1127). */
module World {
  import opened Bytes
  import opened Wrappers
  import opened Model
  import opened Machine
  import opened Relabel

  datatype World = World(coord: State, iso: map<nat, State>)

  datatype Action =
    | Coord(e: Event)
    | Spawn(id: nat)
    | OnIso(id: nat, e: Event)
    | Commit(id: nat)

  /** A new isolated tracer: it shares the block and its rules, and counts ordinals from zero. */
  function Spawned(s: State): State {
    INITIAL.(block := s.block, prague := s.prague, finality := s.finality, isolated := true)
  }

  /** What reordering adds to every ordinal of a committed transaction. */
  function AddBase(base: nat): nat -> nat { (x: nat) => x + base }

  function Committed(s: State, trx: TxTrace): State
    requires s.block.Some?
  {
    var rebased := TxBy(AddBase(s.ordinal), trx);
    s.(block := Some(AddTx(s.block.value, rebased)), ordinal := rebased.endOrdinal)
  }

  /** The isolated tracer after its commit: its transaction is the one now in the block. */
  function Spent(base: nat, i: State): State
    requires i.work.trx.Some?
  {
    i.(ended := false, work := i.work.(trx := Some(TxBy(AddBase(base), i.work.trx.value))))
  }

  /** Commit of isolated tracer `id`, which shifts its transaction in place. Without a completed
      transaction nothing is appended: a dropped transaction is forgotten, anything else is an error
      returned to the caller. */
  function StepCommit(w: World, id: nat): Result<World>
    requires id in w.iso
  {
    var i := w.iso[id];
    if i.dropped then Ok(w.(iso := w.iso[id := i.(dropped := false)]))
    else if !i.ended || i.work.trx.None? then Ok(w)
    else if w.coord.block.None? then Panic
    else Ok(World(Committed(w.coord, i.work.trx.value), w.iso[id := Spent(w.coord.ordinal, i)]))
  }

  /** Tracers that differ at most in the block they last saw. */
  predicate SameButItsBlock(i: State, j: State) { i.(block := None) == j.(block := None) }

  lemma SameInBlock(i: State, j: State, block: Option<Block>)
    requires SameButItsBlock(i, j)
    ensures i.(block := block) == j.(block := block)
  {
    assert i.(block := None).(block := block) == j.(block := None).(block := block);
  }

  lemma SameCommitted(base: nat, i: State, j: State)
    requires SameButItsBlock(i, j)
    ensures SameButItsBlock(i.(dropped := false), j.(dropped := false))
    ensures i.work.trx.Some? ==> j.work.trx.Some? && SameButItsBlock(Spent(base, i), Spent(base, j))
  {
    assert i.(block := None).work == j.(block := None).work;
    assert i == j.(block := i.block);
  }

  /** Commits of tracers that differ at most in the block they last saw. */
  lemma SameCommit(w: World, v: World, id: nat)
    requires id in w.iso && id in v.iso && w.coord == v.coord && SameButItsBlock(w.iso[id], v.iso[id])
    ensures var r, r' := StepCommit(w, id), StepCommit(v, id);
      && r.Panic? == r'.Panic?
      && (r.Ok? ==> r.value.coord == r'.value.coord && id in r.value.iso && id in r'.value.iso
                    && r.value == World(r.value.coord, w.iso[id := r.value.iso[id]])
                    && r'.value == World(r.value.coord, v.iso[id := r'.value.iso[id]])
                    && SameButItsBlock(r.value.iso[id], r'.value.iso[id]))
  {
    var i, j := w.iso[id], v.iso[id];
    SameInBlock(i, j, i.block);
    assert i == j.(block := i.block);
    SameCommitted(w.coord.ordinal, i, j);
    hide SameButItsBlock, Committed, Spent;
  }

  /** The block is shared: an isolated tracer reads and writes the coordinator's. Isolated tracers
      belong to one block and are forgotten when another starts or the block ends. */
  ghost function StepWorld(cfg: Config, w: World, a: Action): Result<World> {
    match a
    case Coord(e) =>
      var s :- Step(cfg, w.coord, e);
      Ok(World(s, if e.BlockStart? || e.BlockEnd? then map[] else w.iso))
    case Spawn(id) =>
      if w.coord.block.None? || id in w.iso then Panic
      else Ok(w.(iso := w.iso[id := Spawned(w.coord)]))
    case OnIso(id, e) =>
      if id !in w.iso then Panic
      else
        var i :- Step(cfg, w.iso[id].(block := w.coord.block), e);
        Ok(World(w.coord.(block := i.block), w.iso[id := i]))
    case Commit(id) =>
      if id !in w.iso then Panic else StepCommit(w, id)
  }

  /** Isolated tracers get the events of transactions and system calls only. */
  predicate ConfinedAction(a: Action) { a.OnIso? ==> Inner(a.e) }

  predicate Confined(actions: seq<Action>) { forall i :: 0 <= i < |actions| ==> ConfinedAction(actions[i]) }

  ghost function RunWorld(cfg: Config, w: World, actions: seq<Action>): Result<World>
    decreases |actions|
  {
    if |actions| == 0 then Ok(w)
    else
      var w1 :- StepWorld(cfg, w, actions[0]);
      RunWorld(cfg, w1, actions[1..])
  }

  lemma {:induction false} RunWorldConcat(cfg: Config, w: World, a: seq<Action>, b: seq<Action>)
    ensures RunWorld(cfg, w, a + b)
         == match RunWorld(cfg, w, a)
            case Panic => Panic
            case Ok(w1) => RunWorld(cfg, w1, b)
    decreases |a|
  {
    hide StepWorld;
    if |a| == 0 {
      assert a + b == b;
    } else {
      assert (a + b)[1..] == a[1..] + b;
      var r := StepWorld(cfg, w, a[0]);
      if r.Ok? {
        RunWorldConcat(cfg, r.value, a[1..], b);
      }
    }
  }

  /** A new coordinator that has spawned nothing. */
  const START := World(INITIAL, map[])
}
