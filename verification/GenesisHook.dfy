/** The genesis hook on the tracer object (tracer.go:242-348): it goes through the other hooks, in loops over
    the sorted keys of the allocation. */
module GenesisHook {
  import opened Bytes
  import opened Wrappers
  import opened Model
  import opened Machine
  import opened Forest
  import opened Objects
  import opened WorkObjects
  import opened Tracing
  import opened Genesis
  import opened GenesisBlock
  import opened Replay
  import Blocks

  // ---------------------------------------------------------------- events

  function Reports(changes: seq<StateChange>): (r: seq<Event>)
    ensures |r| == |changes|
  {
    seq(|changes|, i requires 0 <= i < |changes| => Tx(Changed(changes[i])))
  }

  lemma {:induction false} LeavesFlattened(changes: seq<StateChange>, depth: nat)
    ensures Txs(Flatten(Leaves(changes), depth)) == Reports(changes)
    decreases |changes|
  {
    if |changes| > 0 {
      LeavesFlattened(changes[1..], depth);
      var rest := Flatten(Leaves(changes[1..]), depth);
      assert Flatten(Leaves(changes), depth) == [Changed(changes[0])] + rest;
      assert Txs([Changed(changes[0])] + rest) == [Tx(Changed(changes[0]))] + Txs(rest);
      assert Reports(changes) == [Tx(Changed(changes[0]))] + Reports(changes[1..]);
    }
  }

  lemma GenesisBody(changes: seq<StateChange>)
    ensures Txs(Flatten(GenesisCall(changes), 0))
         == [Tx(Enter(0, GENESIS_FRAME))] + Reports(changes) + [Tx(Leave(GENESIS_EXIT))]
  {
    LeavesFlattened(changes, 1);
    var body := Flatten(Leaves(changes), 1);
    assert Flatten(GenesisCall(changes), 0) == [Enter(0, GENESIS_FRAME)] + body + [Leave(GENESIS_EXIT)];
    assert Txs([Enter(0, GENESIS_FRAME)] + body + [Leave(GENESIS_EXIT)])
        == [Tx(Enter(0, GENESIS_FRAME))] + Txs(body) + [Tx(Leave(GENESIS_EXIT))];
  }

  /** A run that panics early panics. */
  lemma PanicStays(cfg: Config, s: State, a: seq<Event>, whole: seq<Event>)
    requires a <= whole && Run(cfg, s, a).Panic?
    ensures Run(cfg, s, whole).Panic?
  {
    hide Run;
    RunConcat(cfg, s, a, whole[|a|..]);
    assert whole == a + whole[|a|..];
  }

  lemma OneMore(cfg: Config, s: State, a: seq<Event>, s1: State, e: Event)
    requires Run(cfg, s, a) == Ok(s1)
    ensures Run(cfg, s, a + [e]) == Step(cfg, s1, e)
  {
    hide Run, Step;
    RunConcat(cfg, s, a, [e]);
    Blocks.RunSingle(cfg, s1, e);
  }

  // ---------------------------------------------------------------- the hook

  /** The keys of a map in whatever order it is iterated. */
  method Enumerate<K(==, !new)>(keys: set<K>) returns (s: seq<K>)
    ensures Enumerates(s, keys)
  {
    s := [];
    var pending := keys;
    while pending != {}
      invariant pending <= keys && Enumerates(s, keys - pending)
    {
      var k :| k in pending;
      s := s + [k];
      pending := pending - {k};
    }
  }

  /** The tracer is where the events `done` lead from `s0`. */
  ghost predicate Reached(t: Tracer, s0: State, done: seq<Event>)
    reads t, t.Repr
  {
    t.Valid() && Run(t.config, s0, done) == Ok(t.View())
  }

  /** Calls the hook of the next event of `whole`. */
  method Next(t: Tracer, ghost s0: State, ghost done: seq<Event>, ghost whole: seq<Event>, e: Event)
      returns (r: Result<()>)
    requires Reached(t, s0, done) && done + [e] <= whole
    modifies t.Repr
    ensures r.Ok? ==> Reached(t, s0, done + [e]) && fresh(t.Repr - old(t.Repr))
    ensures r.Panic? ==> Run(t.config, s0, whole).Panic?
  {
    hide Run, Step;
    OneMore(t.config, s0, done, t.View(), e);
    r := Deliver(t, e);
    if r.Panic? {
      PanicStays(t.config, s0, done + [e], whole);
    }
  }

  lemma ReportsJoin(a: seq<StateChange>, b: seq<StateChange>)
    ensures Reports(a + b) == Reports(a) + Reports(b)
  {
  }

  /** Four groups of reports in a row, each within the whole. */
  lemma InFour(done: seq<Event>, whole: seq<Event>, a: seq<StateChange>, b: seq<StateChange>, c: seq<StateChange>,
               d: seq<StateChange>)
    requires done + Reports(a + b + c + d) <= whole
    ensures var d1 := done + Reports(a); var d2 := d1 + Reports(b); var d3 := d2 + Reports(c);
      d1 <= whole && d2 <= whole && d3 <= whole && d3 + Reports(d) == done + Reports(a + b + c + d)
  {
    hide Reports;
    ReportsJoin(a, b);
    ReportsJoin(a + b, c);
    ReportsJoin(a + b + c, d);
  }

  /** Reports one change, when there is one to report. */
  method ReportIf(t: Tracer, ghost s0: State, ghost done: seq<Event>, ghost whole: seq<Event>, b: bool, c: StateChange)
      returns (r: Result<()>)
    requires Reached(t, s0, done) && done + Reports(if b then [c] else []) <= whole
    modifies t.Repr
    ensures r.Ok? ==> Reached(t, s0, done + Reports(if b then [c] else [])) && fresh(t.Repr - old(t.Repr))
    ensures r.Panic? ==> Run(t.config, s0, whole).Panic?
  {
    hide Run;
    assert Reports([c]) == [Tx(Changed(c))];
    if b {
      r := Next(t, s0, done, whole, Tx(Changed(c)));
    } else {
      assert done + [] == done;
      r := Ok(());
    }
  }

  method ReportSlots(t: Tracer, ghost s0: State, ghost done: seq<Event>, ghost whole: seq<Event>,
                     a: Address, storage: map<Word, Word>, slots: seq<Word>) returns (r: Result<()>)
    requires (forall k :: k in slots ==> k in storage)
    requires Reached(t, s0, done) && done + Reports(SlotChanges(a, storage, slots)) <= whole
    modifies t.Repr
    ensures r.Ok? ==> Reached(t, s0, done + Reports(SlotChanges(a, storage, slots))) && fresh(t.Repr - old(t.Repr))
    ensures r.Panic? ==> Run(t.config, s0, whole).Panic?
  {
    hide Run;
    ghost var all := Reports(SlotChanges(a, storage, slots));
    assert done + all[..0] == done;
    for i := 0 to |slots|
      invariant Reached(t, s0, done + all[..i]) && fresh(t.Repr - old(t.Repr))
    {
      assert done + all[..i] + [all[i]] == done + all[..i + 1];
      assert done + all[..i + 1] <= done + all;
      r := Next(t, s0, done + all[..i], whole, Tx(Changed(Storage(a, slots[i], ZERO_WORD, storage[slots[i]]))));
      if r.Panic? {
        return;
      }
    }
    assert all[..|slots|] == all;
    return Ok(());
  }

  method ReportAccount(t: Tracer, ghost s0: State, ghost done: seq<Event>, ghost whole: seq<Event>,
                       a: Address, acc: Account, slots: seq<Word>, hash: Bytes -> Word) returns (r: Result<()>)
    requires (forall k :: k in slots ==> k in acc.storage)
    requires Reached(t, s0, done) && done + Reports(AccountChanges(a, acc, slots, hash)) <= whole
    modifies t.Repr
    ensures r.Ok? ==> Reached(t, s0, done + Reports(AccountChanges(a, acc, slots, hash))) && fresh(t.Repr - old(t.Repr))
    ensures r.Panic? ==> Run(t.config, s0, whole).Panic?
  {
    hide Run, Reached, Reports, SlotChanges;
    var b, c, n := Balance(a, 0, acc.balance, REASON_GENESIS_BALANCE),
                   Code(a, ZERO_WORD, hash(acc.code), [], acc.code), Nonce(a, 0, acc.nonce);
    ghost var bs: seq<StateChange>, cs: seq<StateChange>, ns: seq<StateChange> :=
      if acc.balance != 0 then [b] else [], if |acc.code| > 0 then [c] else [], if acc.nonce > 0 then [n] else [];
    ghost var ss := SlotChanges(a, acc.storage, slots);
    InFour(done, whole, bs, cs, ns, ss);
    ghost var d1 := done + Reports(bs);
    ghost var d2 := d1 + Reports(cs);
    ghost var d3 := d2 + Reports(ns);
    r := ReportIf(t, s0, done, whole, acc.balance != 0, b);
    if r.Panic? { return; }
    r := ReportIf(t, s0, d1, whole, |acc.code| > 0, c);
    if r.Panic? { return; }
    r := ReportIf(t, s0, d2, whole, acc.nonce > 0, n);
    if r.Panic? { return; }
    r := ReportSlots(t, s0, d3, whole, a, acc.storage, slots);
  }

  // ---------------------------------------------------------------- all accounts

  ghost function Enumeration<K(!new)>(keys: set<K>): (s: seq<K>)
    ensures Enumerates(s, keys)
  {
    if keys == {} then [] else
      var k :| k in keys;
      [k] + Enumeration(keys - {k})
  }

  ghost function SomeIteration(alloc: Alloc): (it: Iteration)
    ensures IterationOf(it, alloc)
  {
    Iteration(Enumeration(alloc.Keys), map a | a in alloc :: Enumeration(alloc[a].storage.Keys))
  }

  /** Sorting undoes the iteration order. */
  method SortedGenesisAddresses(alloc: Alloc, ghost it: Iteration) returns (addresses: seq<Address>)
    requires IterationOf(it, alloc)
    ensures addresses == SortedAddresses(it.addresses)
  {
    var found := Enumerate(alloc.Keys);
    forall x: Address, y: Address | Num(x) == Num(y) ensures x == y { LexIsNumeric(x, y); }
    SortedOnce(AddressKey, found, it.addresses, alloc.Keys);
    addresses := SortedAddresses(found);
  }

  method SortedStorageKeys(a: Address, alloc: Alloc, ghost it: Iteration) returns (slots: seq<Word>)
    requires IterationOf(it, alloc) && a in alloc
    ensures slots == SlotsOf(it, alloc, a) && forall k :: k in slots ==> k in alloc[a].storage
  {
    var found := Enumerate(alloc[a].storage.Keys);
    forall x: Word, y: Word | Num(x) == Num(y) ensures x == y { LexIsNumeric(x, y); }
    SortedOnce(WordKey, found, it.slots[a], alloc[a].storage.Keys);
    SlotsSorted(it, alloc, a);
    slots := SortedSlots(found);
  }

  lemma ChangesNext(it: Iteration, alloc: Alloc, addresses: seq<Address>, i: nat, hash: Bytes -> Word)
    requires SlotsKnown(it, alloc, addresses) && i < |addresses|
    ensures SlotsKnown(it, alloc, addresses[..i]) && SlotsKnown(it, alloc, addresses[..i + 1])
    ensures forall k :: k in SlotsOf(it, alloc, addresses[i]) ==> k in alloc[addresses[i]].storage
    ensures ChangesOf(it, alloc, addresses[..i + 1], hash)
         == ChangesOf(it, alloc, addresses[..i], hash)
            + AccountChanges(addresses[i], alloc[addresses[i]], SlotsOf(it, alloc, addresses[i]), hash)
  {
    assert addresses[..i + 1][..i] == addresses[..i];
  }

  lemma {:induction false} ChangesGrow(it: Iteration, alloc: Alloc, addresses: seq<Address>, i: nat,
                                       hash: Bytes -> Word)
    requires SlotsKnown(it, alloc, addresses) && i <= |addresses|
    ensures SlotsKnown(it, alloc, addresses[..i])
    ensures ChangesOf(it, alloc, addresses[..i], hash) <= ChangesOf(it, alloc, addresses, hash)
    decreases |addresses|
  {
    hide AccountChanges;
    if i < |addresses| {
      var front := addresses[..|addresses| - 1];
      assert SlotsKnown(it, alloc, front);
      assert front[..i] == addresses[..i];
      ChangesGrow(it, alloc, front, i, hash);
    } else {
      assert addresses[..i] == addresses;
    }
  }

  method ReportAccounts(t: Tracer, ghost s0: State, ghost done: seq<Event>, ghost whole: seq<Event>,
                        alloc: Alloc, ghost it: Iteration, hash: Bytes -> Word) returns (r: Result<()>)
    requires IterationOf(it, alloc)
    requires Reached(t, s0, done) && done + Reports(GenesisChanges(it, alloc, hash)) <= whole
    modifies t.Repr
    ensures r.Ok? ==> Reached(t, s0, done + Reports(GenesisChanges(it, alloc, hash))) && fresh(t.Repr - old(t.Repr))
    ensures r.Panic? ==> Run(t.config, s0, whole).Panic?
  {
    hide Run, Reached, Reports, AccountChanges, SlotsKnown, IterationOf, SlotsOf, SortedAddresses, Enumerates;
    var addresses := SortedGenesisAddresses(alloc, it);
    AllSlotsKnown(it, alloc);
    NothingReported(done);
    ChangesGrow(it, alloc, addresses, 0, hash);
    for i := 0 to |addresses|
      invariant SlotsKnown(it, alloc, addresses[..i]) && fresh(t.Repr - old(t.Repr))
      invariant Reached(t, s0, done + Reports(ChangesOf(it, alloc, addresses[..i], hash)))
    {
      var a := addresses[i];
      AddressKnown(it, alloc, i);
      var slots := SortedStorageKeys(a, alloc, it);
      ghost var before, own := ChangesOf(it, alloc, addresses[..i], hash), AccountChanges(a, alloc[a], slots, hash);
      ChangesNext(it, alloc, addresses, i, hash);
      ChangesGrow(it, alloc, addresses, i + 1, hash);
      ReportsPrefix(done, before, own, GenesisChanges(it, alloc, hash));
      r := ReportAccount(t, s0, done + Reports(before), whole, a, alloc[a], slots, hash);
      if r.Panic? {
        return;
      }
    }
    assert addresses[..|addresses|] == addresses;
    return Ok(());
  }

  lemma NothingReported(done: seq<Event>)
    ensures done + Reports([]) == done
  {
  }

  lemma AddressKnown(it: Iteration, alloc: Alloc, i: nat)
    requires IterationOf(it, alloc) && i < |SortedAddresses(it.addresses)|
    ensures SortedAddresses(it.addresses)[i] in alloc
  {
    AllSlotsKnown(it, alloc);
    assert SortedAddresses(it.addresses)[i] in SortedAddresses(it.addresses);
  }

  lemma ReportsPrefix(done: seq<Event>, a: seq<StateChange>, b: seq<StateChange>, whole: seq<StateChange>)
    requires a + b <= whole
    ensures done + Reports(a) + Reports(b) == done + Reports(a + b)
    ensures done + Reports(a) + Reports(b) <= done + Reports(whole)
  {
    ReportsJoin(a, b);
    ReportsJoin(a + b, whole[|a + b|..]);
    assert whole == (a + b) + whole[|a + b|..];
  }

  // ---------------------------------------------------------------- the whole

  /** The events of the genesis hook, as the list they are. */
  function Opening(info: BlockInfo, prague: bool, finalized: Option<nat>): seq<Event> {
    [BlockStart(info, prague, None, finalized), TxStart(GENESIS_TX, [], false), Tx(Enter(0, GENESIS_FRAME))]
  }

  function Closing(): seq<Event> {
    [Tx(Leave(GENESIS_EXIT)), TxEnd(Some(GENESIS_RECEIPT)), BlockEnd(false)]
  }

  lemma GenesisEventsAre(info: BlockInfo, prague: bool, finalized: Option<nat>, changes: seq<StateChange>)
    ensures GenesisEvents(info, prague, finalized, changes)
         == Opening(info, prague, finalized) + Reports(changes) + Closing()
  {
    GenesisBody(changes);
    assert GenesisEvents(info, prague, finalized, changes)
        == Opening(info, prague, finalized) + Reports(changes) + Closing();
  }

  /** Calls the hooks of `part`, which continues `done` within `whole`. */
  method NextAll(t: Tracer, ghost s0: State, ghost done: seq<Event>, ghost whole: seq<Event>, part: seq<Event>)
      returns (r: Result<()>)
    requires Reached(t, s0, done) && done + part <= whole
    modifies t.Repr
    ensures r.Ok? ==> Reached(t, s0, done + part) && fresh(t.Repr - old(t.Repr))
    ensures r.Panic? ==> Run(t.config, s0, whole).Panic?
  {
    hide Run, Step;
    RunConcat(t.config, s0, done, part);
    r := DeliverAll(t, part);
    if r.Panic? {
      PanicStays(t.config, s0, done + part, whole);
    }
  }

  /** The genesis hook does what the machine does on the genesis events, whatever the iteration order. Between blocks it
      always completes, and the block it emits replays to the allocation. */
  method OnGenesisBlock(t: Tracer, info: BlockInfo, prague: bool, finalized: Option<nat>, alloc: Alloc,
                        hash: Bytes -> Word)
      returns (r: Result<()>)
    requires t.Valid()
    modifies t.Repr
    ensures forall it | IterationOf(it, alloc) ::
      t.Follows(Run(t.config, old(t.View()).(genesis := true),
                    GenesisEvents(info, prague, finalized, GenesisChanges(it, alloc, hash))), r)
    ensures Blocks.Between(old(t.View())) && HashesNonZero(alloc, hash) ==>
      r.Ok? && t.Valid() && Blocks.Between(t.View())
      && EmitsGenesis(old(t.View()).output, t.View().output, info, Normalised(alloc, alloc.Keys))
  {
    hide Run, Reached, Reports, GenesisEvents, GenesisChanges, IterationOf, Normalised, HashesNonZero, EmitsGenesis;
    ghost var it := SomeIteration(alloc);
    r := GenesisBy(t, info, prague, finalized, alloc, it, hash);
    forall it' | IterationOf(it', alloc) ensures GenesisChanges(it', alloc, hash) == GenesisChanges(it, alloc, hash) {
      IterationOrderIrrelevant(it', it, alloc, hash);
    }
    if Blocks.Between(old(t.View())) && HashesNonZero(alloc, hash) {
      GenesisReplay(t.config, old(t.View()), info, prague, finalized, alloc, it, it, hash);
    }
  }

  method GenesisBy(t: Tracer, info: BlockInfo, prague: bool, finalized: Option<nat>, alloc: Alloc, ghost it: Iteration,
                   hash: Bytes -> Word)
      returns (r: Result<()>)
    requires t.Valid() && IterationOf(it, alloc)
    modifies t.Repr
    ensures t.Follows(Run(t.config, old(t.View()).(genesis := true),
                          GenesisEvents(info, prague, finalized, GenesisChanges(it, alloc, hash))), r)
  {
    hide Run, Reports, GenesisEvents, GenesisChanges, IterationOf, Opening, Closing;
    ghost var changes, first, last := GenesisChanges(it, alloc, hash), Opening(info, prague, finalized), Closing();
    ghost var whole := GenesisEvents(info, prague, finalized, changes);
    GenesisEventsAre(info, prague, finalized, changes);
    t.SetGenesis();
    ghost var s0 := t.View();
    NothingRun(t.config, s0, first);
    r := NextAll(t, s0, [], whole, Opening(info, prague, finalized));
    if r.Panic? {
      return;
    }
    r := ReportAccounts(t, s0, first, whole, alloc, it, hash);
    if r.Panic? {
      return;
    }
    r := NextAll(t, s0, first + Reports(changes), whole, Closing());
  }

  lemma NothingRun(cfg: Config, s: State, part: seq<Event>)
    ensures Run(cfg, s, []) == Ok(s) && [] + part == part
  {
  }
}
