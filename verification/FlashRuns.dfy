/** Flash blocks over whole runs of a coordinator and its isolated tracers: which snapshot is standing, what it
    holds, which iterations are accepted and where they start, told from the hook calls alone (tracer.go:351-567). */
module FlashRuns {
  import opened Wrappers
  import opened Model
  import opened Machine
  import opened Steps
  import opened World
  import Blocks

  // ---------------------------------------------------------------- read off the hook calls

  /** The number of the open block, and the index when it is a flash block. */
  datatype Opened = Opened(number: Option<nat>, idx: Option<nat>)

  function NextOpened(o: Opened, a: Action): Opened {
    match a
    case Coord(BlockStart(info, _, flash, _)) =>
      Opened(Some(info.number), if flash.Some? then Some(flash.value.idx) else o.idx)
    case Coord(BlockEnd(_)) => Opened(None, None)
    case _ => o
  }

  function OpenedAfter(actions: seq<Action>): Opened {
    if |actions| == 0 then Opened(None, None)
    else NextOpened(OpenedAfter(actions[..|actions| - 1]), actions[|actions| - 1])
  }

  predicate Takes(o: Opened, a: Action) { a == Coord(TakeSnapshot) && o.idx.Some? }

  /** A snapshot of block `number` does not survive a failed flash block or a flash start of another number. */
  predicate Discards(o: Opened, number: Option<nat>, a: Action) {
    match a
    case Coord(BlockStart(info, _, flash, _)) => flash.Some? && number != Some(info.number)
    case Coord(BlockEnd(failed)) => failed && o.idx.Some?
    case _ => false
  }

  predicate TakesAt(actions: seq<Action>, p: nat) {
    p < |actions| && Takes(OpenedAfter(actions[..p]), actions[p])
  }

  predicate DiscardedAt(actions: seq<Action>, p: nat, q: nat)
    requires p <= q < |actions|
  {
    Discards(OpenedAfter(actions[..q]), OpenedAfter(actions[..p]).number, actions[q])
  }

  /** The snapshot taken at `p` is the last one taken, and nothing has discarded it. */
  ghost predicate Stands(actions: seq<Action>, p: nat) {
    && p < |actions| && TakesAt(actions, p)
    && forall q :: p < q < |actions| ==> !TakesAt(actions, q) && !DiscardedAt(actions, p, q)
  }

  lemma PrefixesAgree(actions: seq<Action>, a: Action, q: nat)
    requires q < |actions|
    ensures (actions + [a])[..q] == actions[..q] && TakesAt(actions + [a], q) == TakesAt(actions, q)
    ensures forall p: nat :: p <= q ==> DiscardedAt(actions + [a], p, q) == DiscardedAt(actions, p, q)
  {
    hide OpenedAfter, Takes, Discards;
    var longer := actions + [a];
    assert longer[q] == actions[q];
    forall p: nat | p <= q ensures longer[..p] == actions[..p] {
    }
  }

  lemma StandsNext(actions: seq<Action>, a: Action, p: nat)
    ensures var o := OpenedAfter(actions);
      Stands(actions + [a], p)
      <==> if p >= |actions| then p == |actions| && Takes(o, a)
           else Stands(actions, p) && !Takes(o, a) && !Discards(o, OpenedAfter(actions[..p]).number, a)
  {
    hide OpenedAfter, Takes, Discards;
    var longer, n := actions + [a], |actions|;
    assert longer[..n] == actions && longer[n] == a;
    assert TakesAt(longer, n) == Takes(OpenedAfter(actions), a);
    if p < n {
      assert longer[..p] == actions[..p];
      assert DiscardedAt(longer, p, n) == Discards(OpenedAfter(actions), OpenedAfter(actions[..p]).number, a);
      forall q: nat | q < n { PrefixesAgree(actions, a, q); }
      hide TakesAt, DiscardedAt;
      assert Stands(longer, p) ==> Stands(actions, p);
    }
  }

  // ---------------------------------------------------------------- what the tracer stores

  function OpenedIn(s: State): Opened {
    Opened(if s.block.Some? then Some(s.block.value.info.number) else None,
           if s.flash.Some? then Some(s.flash.value.idx) else None)
  }

  predicate Takeable(s: State) { s.flash.Some? ==> s.block.Some? }

  /** The snapshot stored after `a`, given the one before. */
  ghost predicate Stores(s: State, a: Action, r: State) {
    r.snapshot
      == if Takes(OpenedIn(s), a) && s.block.Some? && s.flash.Some? then Some(Blocks.SnapshotOf(s))
         else if s.snapshot.Some? && Discards(OpenedIn(s), Some(s.snapshot.value.number), a) then None
         else s.snapshot
  }

  lemma StartFields(s: State, info: BlockInfo, prague: bool, flash: Option<Flash>, finalized: Option<nat>)
    requires StepBlockStart(s, info, prague, flash, finalized).Ok?
    ensures var r := StepBlockStart(s, info, prague, flash, finalized).value;
      && r.block.Some? && r.block.value.info == info && r.flash == (if flash.Some? then flash else s.flash)
      && r.snapshot == if flash.Some? && s.snapshot.Some? && s.snapshot.value.number != info.number then None
                       else s.snapshot
  {
    hide StepBlockStart;
    BlockStartCases(s, info, prague, flash, finalized);
  }

  lemma StartStores(s: State, info: BlockInfo, prague: bool, flash: Option<Flash>, finalized: Option<nat>)
    requires StepBlockStart(s, info, prague, flash, finalized).Ok? && Takeable(s)
    ensures var a, r := Coord(BlockStart(info, prague, flash, finalized)),
                        StepBlockStart(s, info, prague, flash, finalized).value;
      Takeable(r) && OpenedIn(r) == NextOpened(OpenedIn(s), a) && Stores(s, a, r)
  {
    hide StepBlockStart, Blocks.SnapshotOf;
    StartFields(s, info, prague, flash, finalized);
  }

  lemma EndStores(s: State, failed: bool)
    requires StepBlockEnd(s, failed).Ok? && Takeable(s)
    ensures var a, r := Coord(BlockEnd(failed)), StepBlockEnd(s, failed).value;
      Takeable(r) && OpenedIn(r) == NextOpened(OpenedIn(s), a) && Stores(s, a, r)
  {
    hide Blocks.SnapshotOf;
  }

  lemma TakeStores(s: State)
    requires StepSnapshot(s).Ok? && Takeable(s)
    ensures var a, r := Coord(TakeSnapshot), StepSnapshot(s).value;
      Takeable(r) && OpenedIn(r) == NextOpened(OpenedIn(s), a) && Stores(s, a, r)
  {
  }

  lemma CoordinatorStores(cfg: Config, s: State, e: Event)
    requires Step(cfg, s, e).Ok? && Takeable(s)
    ensures var r := Step(cfg, s, e).value;
      Takeable(r) && OpenedIn(r) == NextOpened(OpenedIn(s), Coord(e)) && Stores(s, Coord(e), r)
  {
    if Inner(e) {
      hide Step;
      Blocks.InnerStep(cfg, s, e);
      assert !Takes(OpenedIn(s), Coord(e));
    } else {
      hide StepTxEnd, StepSysStart, StepSysEnd, StepTx, StepTxStart, StepTxReset, StepBlockStart, StepBlockEnd;
      hide StepSnapshot, Stores;
      match e
      case BlockStart(info, prague, flash, finalized) => StartStores(s, info, prague, flash, finalized);
      case BlockEnd(failed) => EndStores(s, failed);
      case _ => TakeStores(s);
    }
  }

  lemma ActionStores(cfg: Config, w: World, a: Action)
    requires StepWorld(cfg, w, a).Ok? && Takeable(w.coord) && ConfinedAction(a)
    ensures var s, r := w.coord, StepWorld(cfg, w, a).value.coord;
      Takeable(r) && OpenedIn(r) == NextOpened(OpenedIn(s), a) && Stores(s, a, r)
  {
    hide Step, Stores;
    match a
    case Coord(e) => CoordinatorStores(cfg, w.coord, e);
    case OnIso(id, e) =>
      Blocks.InnerStep(cfg, w.iso[id].(block := w.coord.block), e);
      KeepsStored(w.coord, a, StepWorld(cfg, w, a).value.coord);
    case _ => KeepsStored(w.coord, a, StepWorld(cfg, w, a).value.coord);
  }

  lemma KeepsStored(s: State, a: Action, r: State)
    requires !a.Coord? && r.snapshot == s.snapshot
    ensures Stores(s, a, r)
  {
  }

  /** `r` is where a run of `actions` ended; its stored snapshot is the state where the standing one was taken. */
  ghost predicate Explained(cfg: Config, actions: seq<Action>, r: State) {
    && Takeable(r) && OpenedIn(r) == OpenedAfter(actions)
    && (r.snapshot.Some? <==> exists p: nat :: Stands(actions, p))
    && forall p: nat :: Stands(actions, p) ==> TakenAt(cfg, actions, p, r.snapshot)
  }

  ghost predicate TakenAt(cfg: Config, actions: seq<Action>, p: nat, snapshot: Option<Snapshot>)
    requires p < |actions|
  {
    var at := RunWorld(cfg, START, actions[..p]);
    && at.Ok? && at.value.coord.block.Some? && at.value.coord.flash.Some?
    && snapshot == Some(Blocks.SnapshotOf(at.value.coord)) && OpenedIn(at.value.coord) == OpenedAfter(actions[..p])
  }

  lemma RunLast(cfg: Config, actions: seq<Action>)
    requires |actions| > 0 && RunWorld(cfg, START, actions).Ok?
    ensures var front := RunWorld(cfg, START, actions[..|actions| - 1]);
      front.Ok? && RunWorld(cfg, START, actions) == StepWorld(cfg, front.value, actions[|actions| - 1])
  {
    hide StepWorld;
    var front, last := actions[..|actions| - 1], actions[|actions| - 1];
    assert actions == front + [last];
    RunWorldConcat(cfg, START, front, [last]);
    assert [last][1..] == [];
  }

  /** After every run, a snapshot is stored exactly when one stands, and it is the state in which that one was taken. */
  lemma {:induction false} SnapshotHeld(cfg: Config, actions: seq<Action>)
    requires Confined(actions) && RunWorld(cfg, START, actions).Ok?
    ensures Explained(cfg, actions, RunWorld(cfg, START, actions).value.coord)
    decreases |actions|
  {
    hide StepWorld;
    if |actions| > 0 {
      var front, a := actions[..|actions| - 1], actions[|actions| - 1];
      assert actions == front + [a];
      RunLast(cfg, actions);
      SnapshotHeld(cfg, front);
      ActionStores(cfg, RunWorld(cfg, START, front).value, a);
      ExplainedNext(cfg, front, a, RunWorld(cfg, START, front).value.coord, RunWorld(cfg, START, actions).value.coord);
    }
  }

  lemma ExplainedNext(cfg: Config, actions: seq<Action>, a: Action, s: State, r: State)
    requires Explained(cfg, actions, s) && RunWorld(cfg, START, actions).Ok?
             && RunWorld(cfg, START, actions).value.coord == s
    requires Takeable(r) && OpenedIn(r) == NextOpened(OpenedIn(s), a) && Stores(s, a, r)
    ensures Explained(cfg, actions + [a], r)
  {
    hide RunWorld, TakesAt, DiscardedAt;
    var longer := actions + [a];
    assert longer[..|actions|] == actions;
    assert OpenedAfter(longer) == OpenedIn(r);
    forall p: nat | Stands(longer, p) ensures p < |longer| && TakenAt(cfg, longer, p, r.snapshot) {
      StandsNext(actions, a, p);
      if p < |actions| {
        assert longer[..p] == actions[..p];
      }
    }
    if r.snapshot.Some? {
      if Takes(OpenedIn(s), a) {
        StandsNext(actions, a, |actions|);
      } else {
        var p: nat :| Stands(actions, p);
        assert TakenAt(cfg, actions, p, s.snapshot);
        assert !Discards(OpenedIn(s), OpenedAfter(actions[..p]).number, a);
        StandsNext(actions, a, p);
        assert Stands(longer, p);
      }
    }
  }

  // ---------------------------------------------------------------- accepted iterations and where they start

  function NumberAt(actions: seq<Action>, p: nat): Option<nat>
    requires p <= |actions|
  {
    OpenedAfter(actions[..p]).number
  }

  /** The index of the flash block open at `p`, zero when there is none. */
  function IndexAt(actions: seq<Action>, p: nat): nat
    requires p <= |actions|
  {
    var idx := OpenedAfter(actions[..p]).idx;
    if idx.Some? then idx.value else 0
  }

  ghost predicate Admits(actions: seq<Action>, number: nat, idx: nat) {
    forall p: nat :: Stands(actions, p) && NumberAt(actions, p) == Some(number) ==> IndexAt(actions, p) < idx
  }

  /** `r` opens block `info` as the coordinator was when the snapshot at `p` was taken. */
  ghost predicate ResumesFrom(cfg: Config, actions: seq<Action>, p: nat, info: BlockInfo, r: State)
    requires p <= |actions|
  {
    var at := RunWorld(cfg, START, actions[..p]);
    && at.Ok? && at.value.coord.block.Some? && r.ordinal == at.value.coord.ordinal
    && r.block == Some(at.value.coord.block.value.(info := info))
  }

  ghost predicate StartsRight(cfg: Config, actions: seq<Action>, info: BlockInfo, r: State) {
    && (forall p: nat :: Stands(actions, p) && NumberAt(actions, p) == Some(info.number) ==>
          ResumesFrom(cfg, actions, p, info, r))
    && ((forall p: nat :: Stands(actions, p) ==> NumberAt(actions, p) != Some(info.number)) ==>
          r.block == Some(NewBlock(info)))
  }

  /** After every run, the start of an iteration is accepted exactly when its index exceeds that of the snapshot
      standing for its number, if there is one; and then it resumes from where that snapshot was taken, and from an
      empty block otherwise. */
  lemma FlashStartAccepted(cfg: Config, actions: seq<Action>, info: BlockInfo, prague: bool, flash: Flash,
                           finalized: Option<nat>)
    requires Confined(actions) && RunWorld(cfg, START, actions).Ok?
    ensures var r := Step(cfg, RunWorld(cfg, START, actions).value.coord,
                          BlockStart(info, prague, Some(flash), finalized));
      && (r.Ok? <==> Admits(actions, info.number, flash.idx))
      && (r.Ok? ==> StartsRight(cfg, actions, info, r.value))
  {
    hide Step, RunWorld;
    var s := RunWorld(cfg, START, actions).value.coord;
    SnapshotHeld(cfg, actions);
    StartCases(cfg, s, info, prague, flash, finalized);
    forall p: nat | Stands(actions, p)
      ensures s.snapshot.Some? && NumberAt(actions, p) == Some(s.snapshot.value.number)
      ensures IndexAt(actions, p) == s.snapshot.value.flashIndex && TakenAt(cfg, actions, p, s.snapshot)
    {
    }
    hide Stands, TakesAt, DiscardedAt;
  }

  lemma StartCases(cfg: Config, s: State, info: BlockInfo, prague: bool, flash: Flash, finalized: Option<nat>)
    ensures var r, same := Step(cfg, s, BlockStart(info, prague, Some(flash), finalized)),
                           s.snapshot.Some? && s.snapshot.value.number == info.number;
      && (r.Ok? <==> same ==> s.snapshot.value.flashIndex < flash.idx)
      && (r.Ok? && same ==> r.value.ordinal == s.snapshot.value.ordinal
                            && r.value.block == Some(FromSnapshot(info, s.snapshot.value)))
      && (r.Ok? && !same ==> r.value.block == Some(NewBlock(info)))
  {
    hide StepTxEnd, StepTxStart, StepTx, StepSysStart, StepSysEnd, StepTxReset, StepSnapshot, StepBlockEnd;
    hide StepBlockStart;
    BlockStartCases(s, info, prague, Some(flash), finalized);
    if s.snapshot.Some? {
      var snap := s.snapshot.value;
      assert [] + snap.txs == snap.txs && [] + snap.systemCalls == snap.systemCalls;
      assert [] + snap.balanceChanges == snap.balanceChanges && [] + snap.codeChanges == snap.codeChanges;
    }
  }

  function FromSnapshot(info: BlockInfo, snap: Snapshot): Block {
    Block(info, snap.txs, snap.systemCalls, snap.balanceChanges, snap.codeChanges)
  }

  // ---------------------------------------------------------------- indexes along a run

  /** What ends the series of iterations of block `number`: its snapshot is discarded, or an ordinary block starts
      inside a flash block, which then goes on under the other number. */
  predicate Breaks(o: Opened, number: Option<nat>, a: Action) {
    Discards(o, number, a) || (o.idx.Some? && a.Coord? && a.e.BlockStart? && a.e.flash.None?)
  }

  predicate Unbroken(actions: seq<Action>, p: nat, q: nat)
    requires p <= q <= |actions|
  {
    forall r :: p < r < q ==> !Breaks(OpenedAfter(actions[..r]), NumberAt(actions, p), actions[r])
  }

  predicate IsStart(a: Action) { a.Coord? && a.e.BlockStart? }

  predicate StartedBetween(actions: seq<Action>, p: nat, q: nat)
    requires p <= q <= |actions|
  {
    exists r :: p < r < q && IsStart(actions[r])
  }

  /** Since the snapshot at `p`, a snapshot of the same block stands whose index is not smaller, and a flash block
      open now is an iteration of that block, a later one exactly when a block started since. */
  lemma {:induction false} SnapshotPersists(cfg: Config, actions: seq<Action>, p: nat) returns (k: nat)
    requires Confined(actions) && RunWorld(cfg, START, actions).Ok?
    requires TakesAt(actions, p) && Unbroken(actions, p, |actions|)
    ensures p <= k && Stands(actions, k) && NumberAt(actions, k) == NumberAt(actions, p)
    ensures IndexAt(actions, p) <= IndexAt(actions, k)
    ensures var o := OpenedAfter(actions);
      o.idx.Some? ==> o.number == NumberAt(actions, p) && IndexAt(actions, k) <= o.idx.value
    ensures var o := OpenedAfter(actions);
      o.idx.Some? ==> (IndexAt(actions, p) < o.idx.value <==> StartedBetween(actions, p, |actions|))
    decreases |actions|
  {
    hide RunWorld, StepWorld;
    var n := |actions| - 1;
    var front, a := actions[..n], actions[n];
    assert actions == front + [a] && OpenedAfter(actions) == NextOpened(OpenedAfter(front), a);
    if p == n {
      k := p;
    } else {
      RunLast(cfg, actions);
      FrontAgrees(actions, p);
      k := SnapshotPersists(cfg, front, p);
      if IsStart(a) && a.e.flash.Some? {
        AcceptedStart(cfg, front, a, k);
      }
      StandsNext(front, a, k);
      StandsNext(front, a, n);
      FrontAgrees(actions, k);
      if Takes(OpenedAfter(front), a) {
        k := n;
      }
    }
  }

  lemma FrontAgrees(actions: seq<Action>, p: nat)
    requires p < |actions| - 1
    ensures var n := |actions| - 1; var front := actions[..n];
      && TakesAt(front, p) == TakesAt(actions, p) && (Unbroken(actions, p, n + 1) ==> Unbroken(front, p, n))
      && NumberAt(front, p) == NumberAt(actions, p) && IndexAt(front, p) == IndexAt(actions, p)
      && (Unbroken(actions, p, n + 1) ==> !Breaks(OpenedAfter(front), NumberAt(actions, p), actions[n]))
      && (StartedBetween(actions, p, n + 1) <==> StartedBetween(front, p, n) || IsStart(actions[n]))
  {
    hide OpenedAfter, Breaks, Takes, IsStart;
    var n := |actions| - 1;
    var front := actions[..n];
    forall q: nat | q <= n ensures front[..q] == actions[..q] {
    }
  }

  lemma AcceptedStart(cfg: Config, actions: seq<Action>, a: Action, k: nat)
    requires Confined(actions) && RunWorld(cfg, START, actions).Ok?
             && StepWorld(cfg, RunWorld(cfg, START, actions).value, a).Ok?
    requires IsStart(a) && a.e.flash.Some? && Stands(actions, k) && NumberAt(actions, k) == Some(a.e.info.number)
    ensures IndexAt(actions, k) < a.e.flash.value.idx
  {
    hide RunWorld, Step;
    FlashStartAccepted(cfg, actions, a.e.info, a.e.prague, a.e.flash.value, a.e.finalized);
    hide Stands, NumberAt, IndexAt;
  }

  lemma PrefixRuns(cfg: Config, actions: seq<Action>, q: nat)
    requires RunWorld(cfg, START, actions).Ok? && q <= |actions|
    ensures RunWorld(cfg, START, actions[..q]).Ok?
  {
    hide RunWorld;
    assert actions == actions[..q] + actions[q..];
    RunWorldConcat(cfg, START, actions[..q], actions[q..]);
  }

  /** Along every run, of two snapshots of one unbroken series the later has the same block number and an index that
      is not smaller, and larger exactly when another block started in between. Ordinary blocks, iterations without a
      snapshot or with several, transactions, system calls, spawns and commits may come anywhere. */
  lemma IndexesIncrease(cfg: Config, actions: seq<Action>, p: nat, q: nat)
    requires Confined(actions) && RunWorld(cfg, START, actions).Ok?
    requires p < q && TakesAt(actions, p) && TakesAt(actions, q) && Unbroken(actions, p, q)
    ensures NumberAt(actions, q) == NumberAt(actions, p) && IndexAt(actions, p) <= IndexAt(actions, q)
    ensures IndexAt(actions, p) < IndexAt(actions, q) <==> StartedBetween(actions, p, q)
  {
    hide RunWorld;
    var front := actions[..q];
    PrefixRuns(cfg, actions, q);
    assert front[..p] == actions[..p];
    forall r: nat | p <= r < q ensures front[..r] == actions[..r] && front[r] == actions[r] {
    }
    assert StartedBetween(front, p, q) == StartedBetween(actions, p, q);
    assert Unbroken(front, p, q);
    var k := SnapshotPersists(cfg, front, p);
  }

  /** An ordinary block started inside a flash block is itself taken for a flash block of the old index: the reason
      why such a start breaks a series. */
  lemma OrdinaryStartInside(cfg: Config, info: BlockInfo, idx: nat)
    ensures var actions := [Coord(BlockStart(info, false, Some(Flash(idx, false)), None)), Coord(TakeSnapshot),
                            Coord(BlockStart(info, false, None, None)), Coord(TakeSnapshot)];
      && RunWorld(cfg, START, actions).Ok? && TakesAt(actions, 1) && TakesAt(actions, 3)
      && StartedBetween(actions, 1, 3)
      && NumberAt(actions, 1) == NumberAt(actions, 3) && IndexAt(actions, 1) == IndexAt(actions, 3) == idx
  {
    hide Step;
    var first, take, second := BlockStart(info, false, Some(Flash(idx, false)), None), TakeSnapshot,
                               BlockStart(info, false, None, None);
    var actions := [Coord(first), Coord(take), Coord(second), Coord(take)];
    assert actions[..1] == [Coord(first)] && actions[..2] == [Coord(first), Coord(take)];
    assert actions[..3] == [Coord(first), Coord(take), Coord(second)];
    assert OpenedAfter(actions[..1]) == Opened(Some(info.number), Some(idx));
    assert actions[..2][..1] == actions[..1] && OpenedAfter(actions[..2]) == Opened(Some(info.number), Some(idx));
    assert actions[..3][..2] == actions[..2] && OpenedAfter(actions[..3]) == Opened(Some(info.number), Some(idx));
    assert IsStart(actions[2]);
    hide StepWorld, OpenedAfter, StartedBetween, RunWorld;
    GoesOn(cfg, START, first, actions[1..]);
    var w1 := StepWorld(cfg, START, Coord(first)).value;
    GoesOn(cfg, w1, take, actions[2..]);
    var w2 := StepWorld(cfg, w1, Coord(take)).value;
    GoesOn(cfg, w2, second, actions[3..]);
    var w3 := StepWorld(cfg, w2, Coord(second)).value;
    GoesOn(cfg, w3, take, []);
  }

  /** A first iteration, an ordinary start and a snapshot of a flash block do not panic. */
  lemma GoesOn(cfg: Config, w: World, e: Event, rest: seq<Action>)
    requires e.TakeSnapshot? || (e.BlockStart? && (e.flash.None? || w.coord.snapshot.None?))
    requires e.TakeSnapshot? ==> w.coord.block.Some? && w.coord.flash.Some?
    ensures var r := StepWorld(cfg, w, Coord(e));
      && r.Ok? && RunWorld(cfg, w, [Coord(e)] + rest) == RunWorld(cfg, r.value, rest)
      && r.value.coord.block.Some? && r.value.coord.flash == if e.BlockStart? && e.flash.Some? then e.flash
                                                             else w.coord.flash
  {
    assert ([Coord(e)] + rest)[1..] == rest;
    if e.BlockStart? {
      hide StepBlockStart;
      BlockStartCases(w.coord, e.info, e.prague, e.flash, e.finalized);
    }
  }
}
