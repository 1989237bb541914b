/** Whole runs of a coordinator object and the tracer objects it spawned, which share its block object: any
    sequence of hook calls, spawns and commits takes them where the machine of worlds goes. */
module ReplayWorld {
  import opened Wrappers
  import opened Model
  import opened Completion
  import opened Machine
  import opened World
  import opened Objects
  import opened Steps
  import opened WorkObjects
  import opened Tracing
  import Replay

  // ---------------------------------------------------------------- the machine

  /** The same worlds, up to what idle isolated tracers last saw of the block. */
  ghost predicate SameTracers(w: World, v: World) {
    w.coord == v.coord && w.iso.Keys == v.iso.Keys && forall i :: i in w.iso ==> SameButItsBlock(w.iso[i], v.iso[i])
  }

  ghost predicate SameWorlds(r: Result<World>, r': Result<World>) {
    r.Ok? == r'.Ok? && (r.Ok? ==> SameTracers(r.value, r'.value))
  }

  lemma SameCommits(w: World, v: World, id: nat)
    requires SameTracers(w, v) && id in w.iso
    ensures SameWorlds(StepCommit(w, id), StepCommit(v, id))
  {
    hide StepCommit, SameButItsBlock;
    SameCommit(w, v, id);
  }

  lemma SameReplaced(w: World, v: World, id: nat, c: State, i: State)
    requires SameTracers(w, v) && id in w.iso
    ensures SameTracers(World(c, w.iso[id := i]), World(c, v.iso[id := i]))
  {
    assert SameButItsBlock(i, i);
    hide SameButItsBlock;
  }

  lemma SameEvents(cfg: Config, w: World, v: World, id: nat, e: Event)
    requires SameTracers(w, v) && id in w.iso
    ensures SameWorlds(StepWorld(cfg, w, OnIso(id, e)), StepWorld(cfg, v, OnIso(id, e)))
  {
    hide Step, SameButItsBlock;
    SameInBlock(w.iso[id], v.iso[id], w.coord.block);
    var r := Step(cfg, w.iso[id].(block := w.coord.block), e);
    if r.Ok? {
      SameReplaced(w, v, id, w.coord.(block := r.value.block), r.value);
      hide SameTracers;
    }
  }

  /** A step does not depend on what an idle tracer last saw of the block. */
  lemma SameSteps(cfg: Config, w: World, v: World, a: Action)
    requires SameTracers(w, v)
    ensures SameWorlds(StepWorld(cfg, w, a), StepWorld(cfg, v, a))
  {
    hide Step, StepCommit;
    match a
    case Coord(e) => {}
    case Spawn(id) => {}
    case OnIso(id, e) => if id in w.iso { SameEvents(cfg, w, v, id, e); }
    case Commit(id) => if id in w.iso { SameCommits(w, v, id); }
  }

  lemma {:induction false} SameRuns(cfg: Config, w: World, v: World, actions: seq<Action>)
    requires SameTracers(w, v)
    ensures SameWorlds(RunWorld(cfg, w, actions), RunWorld(cfg, v, actions))
    decreases |actions|
  {
    hide StepWorld;
    if |actions| > 0 {
      SameSteps(cfg, w, v, actions[0]);
      var r, r' := StepWorld(cfg, w, actions[0]), StepWorld(cfg, v, actions[0]);
      if r.Ok? {
        SameRuns(cfg, r.value, r'.value, actions[1..]);
      }
    }
  }

  ghost predicate Grows(s: State, r: Result<State>) {
    r.Ok? && s.block.Some? ==> r.value.block.Some? && GrewTo(s.block.value, r.value.block.value)
  }

  lemma TxGrows(s: State, e: TxEvent)
    ensures Grows(s, StepTx(s, e))
  {
    hide StepWork;
  }

  lemma TxEndGrows(cfg: Config, s: State, receipt: Option<Receipt>)
    ensures Grows(s, StepTxEnd(cfg, s, receipt))
  {
    hide Complete;
  }

  lemma SystemGrows(s: State)
    ensures Grows(s, StepSysStart(s)) && Grows(s, StepSysEnd(s))
  {
    hide Attach;
  }

  /** Whatever happens within a block only adds to it. */
  lemma BlockGrows(cfg: Config, s: State, e: Event)
    requires !e.BlockStart? && !e.BlockEnd?
    ensures Grows(s, Step(cfg, s, e))
  {
    hide StepTxEnd, StepSysStart, StepSysEnd, StepTx, AuthsOf;
    match e
    case TxEnd(receipt) => TxEndGrows(cfg, s, receipt);
    case SysStart => SystemGrows(s);
    case SysEnd => SystemGrows(s);
    case Tx(e) => TxGrows(s, e);
    case _ => {}
  }

  // ---------------------------------------------------------------- the objects

  ghost function Footprint(c: Tracer, iso: map<nat, Tracer>): set<object>
    reads c, iso.Values
  {
    c.Repr + set i, o | i in iso && o in iso[i].Repr :: o
  }

  ghost predicate Apart(a: set<object>, b: set<object>, block: object?) {
    forall o :: o in a && o in b ==> o == block
  }

  /** The tracers own nothing in common but the block. */
  ghost predicate Together(c: Tracer, iso: map<nat, Tracer>)
    reads c, c.Repr, iso.Values, set i, o | i in iso && o in iso[i].Repr :: o
  {
    && c.Valid() && !c.transactionIsolated && (iso != map[] ==> c.block != null)
    && (forall i :: i in iso ==> iso[i].Valid() && iso[i].transactionIsolated && iso[i].config == c.config)
    && (forall i :: i in iso ==> iso[i].block == c.block && c.ShareBlock(iso[i]))
    && forall i, j :: i in iso && j in iso && i != j ==> Apart(iso[i].Repr, iso[j].Repr, c.block)
  }

  ghost function View(c: Tracer, iso: map<nat, Tracer>): World
    requires Together(c, iso)
    reads c, c.Repr, iso.Values, set i, o | i in iso && o in iso[i].Repr :: o
  {
    World(c.View(), map i | i in iso :: iso[i].View())
  }

  twostate lemma PartsUnchanged(t: Tracer)
    requires old(t.Valid()) && unchanged(old(t.Repr) - {t.block}) && t.block != null
    requires GrewTo(old(t.block.View()), t.block.View())
    ensures t.Valid() && t.BlockView() == Some(t.block.View()) && t.WorkView() == old(t.WorkView())
    ensures t.SavedView() == old(t.SavedView()) && t.SnapshotView() == old(t.SnapshotView())
  {
    hide WorkOf, FitsIn, SnapshotIn, OpenBlock.View;
    if t.snapshotForNextFlashBlock.Some? && t.snapshotForNextFlashBlock.value.block == t.block {
      SnapshotUnaffected(t.snapshotForNextFlashBlock.value, old(t.block.View()), t.block.View());
    }
  }

  lemma OwnsItself(t: Tracer)
    requires t.Valid()
    ensures t in t.Repr && t.blockOrdinal in t.Repr
  {
  }

  /** A change to the shared block shows in a tracer only as the block's growth. */
  twostate lemma OnlyBlockGrew(t: Tracer)
    requires old(t.Valid()) && unchanged(old(t.Repr) - {t.block}) && t.block != null
    requires GrewTo(old(t.block.View()), t.block.View())
    ensures t.Valid() && t.View() == old(t.View()).(block := Some(t.block.View()))
  {
    PartsUnchanged(t);
    OwnsItself(t);
    hide Tracer.Valid, Tracer.BlockView, Tracer.WorkView, Tracer.SavedView, Tracer.SnapshotView, OpenBlock.View;
  }

  /** Tracer `t` and the ones of `iso` share only the block of `c`, which is theirs too. */
  lemma Shared(c: Tracer, iso: map<nat, Tracer>, id: nat)
    requires Together(c, iso) && id in iso
    ensures c.Valid() && !c.transactionIsolated && iso[id].transactionIsolated && c.ShareBlock(iso[id])
    ensures c.block != null && iso[id].block == c.block && iso[id].Valid() && iso[id].config == c.config
    ensures c in c.Repr && c.block in c.Repr && c.block in iso[id].Repr
    ensures Apart(c.Repr, iso[id].Repr, c.block)
    ensures forall j :: j in iso && j != id ==> Apart(iso[j].Repr, iso[id].Repr, c.block) && iso[j] in iso[j].Repr
                                                && iso[j].block == c.block
  {
    hide WorkOf, OpenBlock.View;
    forall j | j in iso ensures iso[j] in iso[j].Repr && c.block in iso[j].Repr {
    }
  }

  lemma ShowsOwnBlock(t: Tracer)
    requires t.Valid() && t.block != null
    ensures t.View().block == Some(t.block.View())
  {
    hide WorkOf, OpenBlock.View;
  }

  /** An event that `t` gets leaves another tracer of the same block as it was, but for the block's growth. */
  method DeliverAmong(t: Tracer, e: Event, ghost others: set<Tracer>) returns (r: Result<()>)
    requires t.Valid() && t.block != null && !e.BlockStart? && !e.BlockEnd?
    requires forall o :: o in others ==> o.Valid() && o.block == t.block && o in o.Repr
                                         && Apart(o.Repr, t.Repr, t.block)
    modifies t.Repr
    ensures t.Follows(Step(t.config, old(t.View()), e), r)
    ensures r.Ok? ==> fresh(t.Repr - old(t.Repr)) && t.block == old(t.block) && t.View().block == Some(t.block.View())
    ensures r.Ok? ==> forall o :: o in others ==>
      o.Valid() && o.Repr == old(o.Repr) && o.block == t.block && o.View() == old(o.View()).(block := t.View().block)
  {
    hide Step, Tracer.Valid, Tracer.View, OpenBlock.View;
    ShowsOwnBlock(t);
    BlockGrows(t.config, t.View(), e);
    r := Replay.Deliver(t, e);
    if r.Ok? {
      ShowsOwnBlock(t);
      forall o | o in others
        ensures o.Valid() && o.Repr == old(o.Repr) && o.block == t.block
                && o.View() == old(o.View()).(block := t.View().block)
      {
        assert unchanged(old(o.Repr) - {t.block});
        OnlyBlockGrew(o);
      }
    }
  }

  /** One isolated tracer went to `i`, and the others followed the block. */
  predicate Moved(before: World, after: World, id: nat, i: State) {
    && id in before.iso && after.coord == before.coord.(block := i.block) && before.iso.Keys == after.iso.Keys
    && after.iso[id] == i && forall j :: j in before.iso && j != id ==> after.iso[j] == before.iso[j].(block := i.block)
  }

  lemma MovedTracers(before: World, after: World, id: nat, i: State)
    requires Moved(before, after, id, i)
    ensures SameTracers(World(before.coord.(block := i.block), before.iso[id := i]), after)
  {
    forall j | j in before.iso && j != id ensures SameButItsBlock(before.iso[j], after.iso[j]) {
    }
    assert SameButItsBlock(i, i);
    hide SameButItsBlock;
  }

  lemma SamePanics(cfg: Config, w: World, id: nat, e: Event)
    requires id in w.iso && w.iso[id].block == w.coord.block
    ensures StepWorld(cfg, w, OnIso(id, e)).Ok? == Step(cfg, w.iso[id], e).Ok?
  {
    hide Step;
    assert w.iso[id].(block := w.coord.block) == w.iso[id];
  }

  lemma MovedWorld(cfg: Config, before: World, after: World, id: nat, e: Event)
    requires id in before.iso && before.iso[id].block == before.coord.block
    requires Step(cfg, before.iso[id], e).Ok? && Moved(before, after, id, Step(cfg, before.iso[id], e).value)
    ensures StepWorld(cfg, before, OnIso(id, e)).Ok? && SameTracers(StepWorld(cfg, before, OnIso(id, e)).value, after)
  {
    hide Step, Moved, SameTracers;
    assert before.iso[id].(block := before.coord.block) == before.iso[id];
    MovedTracers(before, after, id, Step(cfg, before.iso[id], e).value);
  }

  /** An isolated tracer gets an event of a transaction or system call; the others see the block grow. */
  method DeliverBeside(c: Tracer, iso: map<nat, Tracer>, id: nat, e: Event) returns (r: Result<()>)
    requires Together(c, iso) && id in iso && Inner(e)
    modifies iso[id].Repr
    ensures iso[id].Follows(Step(c.config, old(iso[id].View()), e), r)
    ensures r.Ok? ==> fresh(iso[id].Repr - old(iso[id].Repr)) && iso[id].block == c.block
    ensures r.Ok? ==> c.Valid() && c.Repr == old(c.Repr) && c.block == old(c.block)
                      && c.View() == old(c.View()).(block := iso[id].View().block)
    ensures r.Ok? ==> forall j :: j in iso && j != id ==>
      iso[j].Valid() && iso[j].Repr == old(iso[j].Repr) && iso[j].block == old(iso[j].block)
      && iso[j].View() == old(iso[j].View()).(block := iso[id].View().block)
  {
    hide Step, Tracer.Valid, Tracer.View, OpenBlock.View;
    Shared(c, iso, id);
    AllShared(c, iso);
    ghost var others := {c} + set j | j in iso && j != id :: iso[j];
    assert forall j :: j in iso && j != id ==> iso[j] in others;
    hide Together;
    r := DeliverAmong(iso[id], e, others);
  }

  /** Delivers an event of a transaction or system call to an isolated tracer. */
  method DeliverIsolated(c: Tracer, iso: map<nat, Tracer>, id: nat, e: Event) returns (r: Result<()>)
    requires Together(c, iso) && id in iso && Inner(e)
    modifies iso[id].Repr
    ensures r.Ok? == Step(c.config, old(iso[id].View()), e).Ok?
    ensures r.Ok? ==> Together(c, iso)
                      && Moved(old(View(c, iso)), View(c, iso), id, Step(c.config, old(iso[id].View()), e).value)
    ensures r.Ok? ==> fresh(Footprint(c, iso) - old(Footprint(c, iso)))
  {
    hide Step, Tracer.Valid, Tracer.View, OpenBlock.View;
    r := DeliverBeside(c, iso, id, e);
  }

  predicate Followed(before: World, after: World, s: State) {
    && after.coord == s && before.iso.Keys == after.iso.Keys
    && forall j :: j in before.iso ==> after.iso[j] == before.iso[j].(block := s.block)
  }

  lemma FollowedWorld(cfg: Config, before: World, after: World, e: Event)
    requires Step(cfg, before.coord, e).Ok? && Followed(before, after, Step(cfg, before.coord, e).value)
    requires !e.BlockStart? && !e.BlockEnd?
    ensures StepWorld(cfg, before, Coord(e)).Ok? && SameTracers(StepWorld(cfg, before, Coord(e)).value, after)
  {
    hide Step;
    forall j | j in before.iso ensures SameButItsBlock(before.iso[j], after.iso[j]) {
    }
    hide SameButItsBlock;
  }

  /** Delivers an event inside a block to the coordinator. */
  method DeliverInside(c: Tracer, iso: map<nat, Tracer>, e: Event) returns (r: Result<()>)
    requires Together(c, iso) && c.block != null && !e.BlockStart? && !e.BlockEnd?
    modifies c.Repr
    ensures r.Ok? == Step(c.config, old(c.View()), e).Ok?
    ensures r.Ok? ==> Together(c, iso)
                      && Followed(old(View(c, iso)), View(c, iso), Step(c.config, old(c.View()), e).value)
    ensures r.Ok? ==> fresh(Footprint(c, iso) - old(Footprint(c, iso)))
  {
    hide Step, Tracer.Valid, Tracer.View, OpenBlock.View;
    AllShared(c, iso);
    r := DeliverAmong(c, e, set j | j in iso :: iso[j]);
  }

  lemma AllShared(c: Tracer, iso: map<nat, Tracer>)
    requires Together(c, iso)
    ensures forall j :: j in iso ==> Apart(iso[j].Repr, c.Repr, c.block) && iso[j] in iso[j].Repr
                                     && iso[j].block == c.block
                                     && iso[j].Valid()
  {
  }

  /** Delivers an event to the coordinator; a block that starts or ends forgets the isolated tracers. */
  method DeliverCoordinator(c: Tracer, iso: map<nat, Tracer>, e: Event) returns (r: Result<map<nat, Tracer>>)
    requires Together(c, iso)
    modifies c.Repr
    ensures r.Ok? == StepWorld(c.config, old(View(c, iso)), Coord(e)).Ok?
    ensures r.Ok? ==> Together(c, r.value)
                      && SameTracers(StepWorld(c.config, old(View(c, iso)), Coord(e)).value, View(c, r.value))
    ensures r.Ok? ==> fresh(Footprint(c, r.value) - old(Footprint(c, iso)))
  {
    hide Step, Tracer.Valid, Tracer.View, OpenBlock.View, Followed;
    if c.block == null || e.BlockStart? || e.BlockEnd? {
      var d := Replay.Deliver(c, e);
      r := if d.Ok? then Ok(map[]) else Panic;
    } else {
      ghost var before := View(c, iso);
      var d := DeliverInside(c, iso, e);
      if d.Ok? {
        FollowedWorld(c.config, before, View(c, iso), e);
      }
      r := if d.Ok? then Ok(iso) else Panic;
    }
  }

  /** Spawns tracer `id` on the coordinator's block. */
  method SpawnIsolated(c: Tracer, iso: map<nat, Tracer>, id: nat) returns (r: Result<map<nat, Tracer>>)
    requires Together(c, iso) && id !in iso
    ensures r.Ok? == StepWorld(c.config, View(c, iso), Spawn(id)).Ok?
    ensures r.Ok? ==> Together(c, r.value) && View(c, r.value) == StepWorld(c.config, View(c, iso), Spawn(id)).value
    ensures r.Ok? ==> fresh(Footprint(c, r.value) - Footprint(c, iso))
  {
    hide Tracer.Valid, Tracer.View, OpenBlock.View;
    AllShared(c, iso);
    ShowsNoBlock(c);
    var t := c.OnTxSpawn();
    if t.Panic? {
      return Panic;
    }
    ShowsIsolated(t.value);
    forall o: object | o in t.value.Repr && o in Footprint(c, iso) ensures o == c.block {
      assert o in t.value.Repr - {c.block} || o == c.block;
    }
    Joins(c, iso, id, t.value);
    hide Together;
    assert c.block in Footprint(c, iso);
    return Ok(iso[id := t.value]);
  }

  lemma Joins(c: Tracer, iso: map<nat, Tracer>, id: nat, t: Tracer)
    requires Together(c, iso) && c.block != null && t.Valid() && t.transactionIsolated && t.config == c.config
             && t.block == c.block
    requires id !in iso && Apart(t.Repr, Footprint(c, iso), c.block)
    ensures Together(c, iso[id := t]) && View(c, iso[id := t]) == World(c.View(), View(c, iso).iso[id := t.View()])
    ensures Footprint(c, iso[id := t]) <= Footprint(c, iso) + t.Repr
  {
    hide Tracer.Valid, Tracer.View;
    var all := iso[id := t];
    assert forall j, o :: j in iso && o in iso[j].Repr ==> o in Footprint(c, iso);
    assert c.ShareBlock(t);
    forall i, j | i in all && j in all && i != j ensures Apart(all[i].Repr, all[j].Repr, c.block) {
    }
  }

  lemma ShowsNoBlock(t: Tracer)
    requires t.Valid()
    ensures (t.View().block.None? <==> t.block == null) && (t.block != null ==> t.block in t.Repr)
  {
    hide WorkOf, OpenBlock.View;
  }

  lemma ShowsIsolated(t: Tracer)
    requires t.Valid()
    ensures t.View().isolated == t.transactionIsolated
  {
    hide WorkOf, OpenBlock.View;
  }

  /** A commit only adds to the coordinator's block. */
  lemma CommitGrows(c: State, i: State)
    requires i.isolated && c.block.Some?
    ensures var r := CommitOf(c, i);
      && r.Ok? && 0 in r.value.iso && r.value.coord.block.Some? && GrewTo(c.block.value, r.value.coord.block.value)
  {
    CommitCases(c, i);
    hide CommitOf, Rebased;
  }

  /** The commit of tracer `id`; the others see the block grow. */
  method CommitBeside(c: Tracer, iso: map<nat, Tracer>, id: nat)
    requires Together(c, iso) && id in iso
    modifies c.Repr, iso[id].Repr
    ensures c.Repr == old(c.Repr) && c.block == old(c.block) && c.Valid()
    ensures forall j :: j in iso ==> iso[j].Repr == old(iso[j].Repr) && iso[j].block == old(iso[j].block)
                                     && iso[j].Valid()
    ensures var w := CommitOf(old(c.View()), old(iso[id].View()));
      w.Ok? && 0 in w.value.iso && c.View() == w.value.coord
      && iso[id].View() == w.value.iso[0].(block := c.View().block)
    ensures forall j :: j in iso && j != id ==> iso[j].View() == old(iso[j].View()).(block := c.View().block)
  {
    hide Tracer.Valid, Tracer.View, OpenBlock.View, CommitOf;
    Shared(c, iso, id);
    AllShared(c, iso);
    ShowsOwnBlock(c);
    ShowsIsolated(iso[id]);
    CommitGrows(c.View(), iso[id].View());
    hide Together;
    var _ := c.OnTxCommit(iso[id]);
    ShowsOwnBlock(c);
    forall j | j in iso && j != id
      ensures iso[j].Valid() && iso[j].Repr == old(iso[j].Repr) && iso[j].block == old(iso[j].block)
              && iso[j].View() == old(iso[j].View()).(block := c.View().block)
    {
      assert unchanged(old(iso[j].Repr) - {c.block});
      OnlyBlockGrew(iso[j]);
    }
  }

  predicate CommittedTo(before: World, after: World, id: nat, w: World) {
    && id in before.iso && 0 in w.iso && after.coord == w.coord && before.iso.Keys == after.iso.Keys
    && after.iso[id] == w.iso[0].(block := w.coord.block)
    && forall j :: j in before.iso && j != id ==> after.iso[j] == before.iso[j].(block := w.coord.block)
  }

  lemma CommitOne(w: World, id: nat)
    requires id in w.iso
    ensures var r, one := StepCommit(w, id), CommitOf(w.coord, w.iso[id]);
      && r.Ok? == one.Ok?
      && (r.Ok? ==> 0 in one.value.iso && r.value == World(one.value.coord, w.iso[id := one.value.iso[0]]))
  {
    hide Committed, Spent;
  }

  lemma CommittedWorld(before: World, after: World, id: nat)
    requires id in before.iso && CommitOf(before.coord, before.iso[id]).Ok?
    requires CommittedTo(before, after, id, CommitOf(before.coord, before.iso[id]).value)
    ensures SameWorlds(StepCommit(before, id), Ok(after))
  {
    hide CommitOf, StepCommit;
    CommitOne(before, id);
    var i := CommitOf(before.coord, before.iso[id]).value.iso[0];
    assert SameButItsBlock(i, after.iso[id]);
    forall j | j in before.iso && j != id ensures SameButItsBlock(before.iso[j], after.iso[j]) {
    }
    hide SameButItsBlock;
  }

  lemma ShowsBlocks(c: Tracer, iso: map<nat, Tracer>)
    requires Together(c, iso)
    ensures forall j :: j in iso ==> View(c, iso).iso[j].block == View(c, iso).coord.block
  {
    hide WorkOf, OpenBlock.View;
  }

  /** Commits tracer `id`. */
  method CommitIsolated(c: Tracer, iso: map<nat, Tracer>, id: nat)
    requires Together(c, iso) && id in iso
    modifies c.Repr, iso[id].Repr
    ensures Together(c, iso) && CommitOf(old(c.View()), old(iso[id].View())).Ok?
    ensures CommittedTo(old(View(c, iso)), View(c, iso), id, CommitOf(old(c.View()), old(iso[id].View())).value)
    ensures Footprint(c, iso) == old(Footprint(c, iso))
  {
    hide Tracer.Valid, Tracer.View, OpenBlock.View, CommitOf;
    CommitBeside(c, iso, id);
  }

  lemma Itself(w: World)
    ensures SameTracers(w, w)
  {
  }

  /** One action. */
  method DeliverAction(c: Tracer, iso: map<nat, Tracer>, a: Action) returns (r: Result<map<nat, Tracer>>)
    requires Together(c, iso) && ConfinedAction(a)
    modifies Footprint(c, iso)
    ensures r.Ok? == StepWorld(c.config, old(View(c, iso)), a).Ok?
    ensures r.Ok? ==> Together(c, r.value)
                      && SameTracers(StepWorld(c.config, old(View(c, iso)), a).value, View(c, r.value))
    ensures r.Ok? ==> fresh(Footprint(c, r.value) - old(Footprint(c, iso)))
  {
    hide Step, Together, SameTracers, Tracer.View, OpenBlock.View, StepCommit, Moved, CommittedTo, CommitOf;
    ghost var before := View(c, iso);
    match a
    case Coord(e) => r := DeliverCoordinator(c, iso, e);
    case Spawn(id) =>
      if id in iso {
        return Panic;
      }
      r := SpawnIsolated(c, iso, id);
      if r.Ok? {
        Itself(View(c, r.value));
      }
    case OnIso(id, e) =>
      if id !in iso {
        return Panic;
      }
      ShowsBlocks(c, iso);
      SamePanics(c.config, before, id, e);
      var d := DeliverIsolated(c, iso, id, e);
      if d.Panic? {
        return Panic;
      }
      MovedWorld(c.config, before, View(c, iso), id, e);
      r := Ok(iso);
    case Commit(id) =>
      if id !in iso {
        return Panic;
      }
      CommitIsolated(c, iso, id);
      CommittedWorld(before, View(c, iso), id);
      r := Ok(iso);
  }

  /** What is left to deliver leads from here where everything led from the start. */
  lemma OneDelivered(cfg: Config, w: World, actions: seq<Action>, end: Result<World>, now: World)
    requires |actions| > 0 && SameWorlds(end, RunWorld(cfg, w, actions))
    requires StepWorld(cfg, w, actions[0]).Ok? && SameTracers(StepWorld(cfg, w, actions[0]).value, now)
    ensures SameWorlds(end, RunWorld(cfg, now, actions[1..]))
  {
    hide StepWorld, SameTracers;
    SameRuns(cfg, StepWorld(cfg, w, actions[0]).value, now, actions[1..]);
    if end.Ok? {
      Transitive(end.value, RunWorld(cfg, w, actions).value, RunWorld(cfg, now, actions[1..]).value);
    }
  }

  lemma Transitive(u: World, v: World, w: World)
    requires SameTracers(u, v) && SameTracers(v, w)
    ensures SameTracers(u, w)
  {
  }

  /** Delivers actions one after the other, until one panics. */
  method DeliverActions(c: Tracer, spawned: map<nat, Tracer>, actions: seq<Action>)
      returns (r: Result<map<nat, Tracer>>)
    requires Together(c, spawned) && Confined(actions)
    modifies Footprint(c, spawned)
    ensures r.Ok? == RunWorld(c.config, old(View(c, spawned)), actions).Ok?
    ensures r.Ok? ==> Together(c, r.value)
                      && SameTracers(RunWorld(c.config, old(View(c, spawned)), actions).value, View(c, r.value))
  {
    hide StepWorld, Together, SameTracers, Tracer.View;
    var iso := spawned;
    ghost var end := RunWorld(c.config, View(c, spawned), actions);
    ghost var footprint := Footprint(c, spawned);
    assert SameWorlds(end, end) by { if end.Ok? { Itself(end.value); } }
    for i := 0 to |actions|
      invariant Together(c, iso) && fresh(Footprint(c, iso) - footprint)
      invariant SameWorlds(end, RunWorld(c.config, View(c, iso), actions[i..]))
    {
      assert actions[i..][0] == actions[i] && actions[i..][1..] == actions[i + 1..];
      ghost var before := View(c, iso);
      ghost var held := Footprint(c, iso);
      var d := DeliverAction(c, iso, actions[i]);
      if d.Panic? {
        return Panic;
      }
      assert fresh(held - footprint);
      assert fresh(Footprint(c, d.value) - held);
      iso := d.value;
      assert fresh(Footprint(c, iso) - footprint);
      OneDelivered(c.config, before, actions[i..], end, View(c, iso));
    }
    return Ok(iso);
  }

  /** A whole life of a tracer, from its creation. */
  method TraceAll(config: Config, actions: seq<Action>) returns (r: Result<Tracer>)
    requires Confined(actions)
    ensures r.Ok? == RunWorld(config, START, actions).Ok?
    ensures r.Ok? ==> r.value.Valid() && r.value.View() == RunWorld(config, START, actions).value.coord
  {
    hide StepWorld, RunWorld, Tracer.View, Tracer.Valid;
    var c := NewTracer(config);
    ShowsIsolated(c);
    assert View(c, map[]) == START;
    var d := DeliverActions(c, map[], actions);
    r := if d.Ok? then Ok(c) else Panic;
  }
}
