/** Attaching the kept preimages to the calls that recorded them (keccak_filter.go:51-84). */
module Preimages {
  import opened Bytes
  import opened Wrappers
  import opened Model
  import opened Completion
  import opened Objects
  import KeccakFilter

  // ---------------------------------------------------------------- storage keys

  method CallStorageKeys(changes: seq<Change>) returns (keys: seq<Bytes>)
    ensures keys == StorageKeys(changes)
  {
    keys := [];
    for i := 0 to |changes|
      invariant keys == StorageKeys(changes[..i])
    {
      assert changes[..i + 1][..i] == changes[..i];
      if changes[i].body.Storage? {
        keys := keys + [changes[i].body.key];
      } else {
        assert keys + [] == keys;
      }
    }
    assert changes[..|changes|] == changes;
  }

  method CollectStorageKeys(calls: seq<Call>) returns (keys: seq<Bytes>)
    ensures keys == AllStorageKeys(Views(calls))
  {
    hide Call.View, StorageKeys;
    keys := [];
    for i := 0 to |calls|
      invariant keys == AllStorageKeys(Views(calls)[..i])
    {
      assert Views(calls)[..i + 1][..i] == Views(calls)[..i];
      Fields(calls[i]);
      var own := CallStorageKeys(calls[i].storageChanges);
      keys := keys + own;
    }
    assert Views(calls)[..|calls|] == Views(calls);
  }

  // ---------------------------------------------------------------- one more recorded preimage

  lemma {:induction false} OfCallAppend(recorded: seq<Recorded>, r: Recorded, callIndex: nat)
    ensures OfCall(recorded + [r], callIndex)
         == OfCall(recorded, callIndex) + if r.callIndex == callIndex then [r] else []
  {
    if |recorded| == 0 {
      assert recorded + [r] == [r] && [r][1..] == [];
    } else {
      var rest := recorded[1..];
      OfCallAppend(rest, r, callIndex);
      assert (recorded + [r])[1..] == rest + [r];
    }
  }

  /** The first preimage a call recorded of a kept hash is attached, later ones are not. */
  lemma ExplainedAppend(kept: set<Word>, recorded: seq<Recorded>, r: Recorded, callIndex: nat)
    ensures var before := Explained(kept, recorded, callIndex);
      Explained(kept, recorded + [r], callIndex)
      == if r.callIndex == callIndex && r.hash in kept && r.hash !in before then before[r.hash := r.preimage]
         else before
  {
    OfCallAppend(recorded, r, callIndex);
    if r.callIndex == callIndex {
      HashesAppend(OfCall(recorded, callIndex), r);
      forall h: Word {
        KeccakFilter.FirstOfAppend(OfCall(recorded, callIndex), r, h);
      }
    } else {
      assert OfCall(recorded, callIndex) + [] == OfCall(recorded, callIndex);
    }
  }

  lemma HashesAppend(recorded: seq<Recorded>, r: Recorded)
    ensures KeccakFilter.Hashes(recorded + [r]) == KeccakFilter.Hashes(recorded) + {r.hash}
  {
    assert r in recorded + [r];
    forall x | x in recorded ensures x in recorded + [r] {
    }
  }

  lemma NothingExplained(kept: set<Word>, recorded: seq<Recorded>, callIndex: nat)
    requires kept == {} || recorded == []
    ensures Explained(kept, recorded, callIndex) == map[]
  {
  }

  // ---------------------------------------------------------------- the loop

  /** Position `p` holds the last call of its index, and every index is found. */
  ghost predicate Indexed(calls: seq<CallRec>, byIndex: map<nat, nat>) {
    && (forall k :: k in byIndex ==> byIndex[k] < |calls| && calls[byIndex[k]].index == k
                                     && LastWithIndex(calls, byIndex[k]))
    && forall i :: 0 <= i < |calls| ==> calls[i].index in byIndex
  }

  method IndexCalls(calls: seq<Call>) returns (byIndex: map<nat, nat>)
    ensures Indexed(Views(calls), byIndex)
  {
    hide Call.View;
    byIndex := map[];
    for i := 0 to |calls|
      invariant Indexed(Views(calls)[..i], byIndex)
    {
      Fields(calls[i]);
      IndexedOne(Views(calls), i, byIndex);
      byIndex := byIndex[calls[i].index := i];
    }
    assert Views(calls)[..|calls|] == Views(calls);
  }

  lemma IndexedOne(calls: seq<CallRec>, i: nat, byIndex: map<nat, nat>)
    requires i < |calls| && Indexed(calls[..i], byIndex)
    ensures Indexed(calls[..i + 1], byIndex[calls[i].index := i])
  {
    var byIndex' := byIndex[calls[i].index := i];
    forall k | k in byIndex' && k != calls[i].index ensures LastWithIndex(calls[..i + 1], byIndex'[k]) {
      assert LastWithIndex(calls[..i], byIndex[k]);
      assert calls[..i][byIndex[k]].index == k;
    }
    forall j | 0 <= j < i ensures calls[j].index in byIndex {
      assert calls[..i][j] == calls[j];
    }
  }

  /** Call `i` once the preimages of `recorded` are attached. */
  ghost function Attached(calls: seq<CallRec>, kept: set<Word>, recorded: seq<Recorded>, i: nat): CallRec
    requires i < |calls|
  {
    if LastWithIndex(calls, i) then WithPreimages(calls[i], kept, recorded) else calls[i]
  }

  lemma AttachedEmpty(calls: seq<CallRec>, kept: set<Word>, recorded: seq<Recorded>, i: nat)
    requires i < |calls| && (kept == {} || recorded == [])
    ensures Attached(calls, kept, recorded, i) == calls[i]
  {
    NothingExplained(kept, recorded, calls[i].index);
    assert map[] + calls[i].keccak == calls[i].keccak;
  }

  function WithPreimage(c: CallRec, r: Recorded): CallRec {
    if r.hash in c.keccak then c else c.(keccak := c.keccak[r.hash := r.preimage])
  }

  /** What attaching one more preimage does to each call. */
  lemma AttachedAppend(calls: seq<CallRec>, byIndex: map<nat, nat>, kept: set<Word>, recorded: seq<Recorded>,
                       r: Recorded, i: nat)
    requires i < |calls| && Indexed(calls, byIndex)
    ensures var before := Attached(calls, kept, recorded, i);
      Attached(calls, kept, recorded + [r], i)
      == if r.hash in kept && r.callIndex in byIndex && byIndex[r.callIndex] == i 
         then WithPreimage(before, r) else before
  {
    ExplainedAppend(kept, recorded, r, calls[i].index);
    var e := Explained(kept, recorded, calls[i].index);
    if LastWithIndex(calls, i) {
      OnlyLast(calls, byIndex, i);
      if r.hash !in e {
        assert e[r.hash := r.preimage] + calls[i].keccak
            == if r.hash in calls[i].keccak then e + calls[i].keccak else (e + calls[i].keccak)[r.hash := r.preimage];
      }
    }
  }

  lemma OnlyLast(calls: seq<CallRec>, byIndex: map<nat, nat>, i: nat)
    requires i < |calls| && Indexed(calls, byIndex) && LastWithIndex(calls, i)
    ensures byIndex[calls[i].index] == i
  {
    assert LastWithIndex(calls, byIndex[calls[i].index]);
  }

  method AddPreimage(call: Call, r: Recorded)
    modifies call
    ensures call.View() == WithPreimage(old(call.View()), r)
  {
    if r.hash !in call.keccak {
      call.keccak := call.keccak[r.hash := r.preimage];
    }
  }

  /** Gives each call the preimages it recorded that explain a storage slot written by any of `calls`. */
  method AttachStorageSlotPreimages(calls: seq<Call>, recorded: seq<Recorded>)
    requires Separate(calls)
    modifies calls
    ensures Views(calls) == Attach(old(Views(calls)), recorded)
  {
    hide Call.View, Attached, Indexed, LastWithIndex, WithPreimages;
    ghost var start := Views(calls);
    if |recorded| == 0 {
      AttachIs(start, recorded);
      NothingAttached(start, recorded);
      return;
    }
    var keys := CollectStorageKeys(calls);
    var kept, _ := KeccakFilter.StorageSlotHashes(keys, recorded);
    AttachIs(start, recorded);
    if kept == {} {
      NothingAttached(start, recorded);
      return;
    }
    var byIndex := IndexCalls(calls);
    AttachedAtFirst(start, kept);
    for n := 0 to |recorded|
      invariant forall i :: 0 <= i < |calls| ==> calls[i].View() == Attached(start, kept, recorded[..n], i)
    {
      AttachOne(calls, start, byIndex, kept, recorded, n);
      assert recorded[..n + 1] == recorded[..n] + [recorded[n]];
    }
    assert recorded[..|recorded|] == recorded;
  }

  /** One round of the loop over the recorded preimages. */
  method AttachOne(calls: seq<Call>, ghost start: seq<CallRec>, byIndex: map<nat, nat>, kept: set<Word>,
                   recorded: seq<Recorded>, n: nat)
    requires Separate(calls) && n < |recorded| && |calls| == |start| && Indexed(start, byIndex)
    requires forall i :: 0 <= i < |calls| ==> calls[i].View() == Attached(start, kept, recorded[..n], i)
    modifies calls
    ensures forall i :: 0 <= i < |calls| ==> calls[i].View() == Attached(start, kept, recorded[..n] + [recorded[n]], i)
  {
    hide Call.View, Attached, LastWithIndex, WithPreimage;
    var r := recorded[n];
    forall i | 0 <= i < |calls|
      ensures Attached(start, kept, recorded[..n] + [r], i)
           == if r.hash in kept && r.callIndex in byIndex && byIndex[r.callIndex] == i
              then WithPreimage(calls[i].View(), r) else calls[i].View()
    {
      AttachedAppend(start, byIndex, kept, recorded[..n], r, i);
    }
    if r.hash in kept && r.callIndex in byIndex {
      AddPreimage(calls[byIndex[r.callIndex]], r);
    }
  }

  lemma AttachIs(calls: seq<CallRec>, recorded: seq<Recorded>)
    ensures var kept := KeccakFilter.Kept(AllStorageKeys(calls), recorded);
      |Attach(calls, recorded)| == |calls|
      && forall i :: 0 <= i < |calls| ==> Attach(calls, recorded)[i] == Attached(calls, kept, recorded, i)
  {
    hide KeccakFilter.Kept, LastWithIndex, WithPreimages;
  }

  lemma NothingAttached(calls: seq<CallRec>, recorded: seq<Recorded>)
    requires recorded == [] || KeccakFilter.Kept(AllStorageKeys(calls), recorded) == {}
    ensures Attach(calls, recorded) == calls
  {
    hide KeccakFilter.Kept, Attached;
    AttachIs(calls, recorded);
    forall i | 0 <= i < |calls| {
      AttachedEmpty(calls, KeccakFilter.Kept(AllStorageKeys(calls), recorded), recorded, i);
    }
  }

  lemma AttachedAtFirst(calls: seq<CallRec>, kept: set<Word>)
    ensures forall i :: 0 <= i < |calls| ==> Attached(calls, kept, [], i) == calls[i]
  {
    hide Attached;
    forall i | 0 <= i < |calls| {
      AttachedEmpty(calls, kept, [], i);
    }
  }
}
