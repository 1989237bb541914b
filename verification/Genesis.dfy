/** The genesis block (tracer.go:242-348): a synthetic transaction with one call that holds the whole
    allocation as changes. Replaying the recorded changes rebuilds the allocation, and the block does not
    depend on the order in which maps are iterated. */
module Genesis {
  import opened Bytes
  import opened Wrappers
  import opened Model
  import opened Sorting

  datatype Account = Account(code: Bytes, storage: map<Word, Word>, balance: nat, nonce: nat)

  function Zeros(n: nat): (z: Bytes)
    ensures |z| == n
  {
    if n == 0 then [] else Zeros(n - 1) + [0]
  }

  const ADDRESS_SIZE := 20

  type Address = a: Bytes | |a| == ADDRESS_SIZE witness seq(ADDRESS_SIZE, _ => 0)

  type Alloc = map<Address, Account>

  const ZERO_WORD: Word := Zeros(WORD_SIZE)
  const ZERO_ADDRESS: Address := Zeros(ADDRESS_SIZE)

  predicate IsZero(w: Word) { w == ZERO_WORD }

  /** A stand-in for the reason of genesis balances: that it is not the unknown one is all that matters. */
  const REASON_GENESIS_BALANCE := REASON_UNKNOWN + 1

  // ---------------------------------------------------------------- iteration orders

  /** One order in which a map with the given keys may be iterated. */
  ghost predicate Enumerates<K(!new)>(s: seq<K>, keys: set<K>) {
    (forall k :: k in s <==> k in keys) && forall i, j :: 0 <= i < j < |s| ==> s[i] != s[j]
  }

  /** The orders in which the maps of an allocation happen to be iterated. */
  datatype Iteration = Iteration(addresses: seq<Address>, slots: map<Address, seq<Word>>)

  ghost predicate IterationOf(it: Iteration, alloc: Alloc) {
    && Enumerates(it.addresses, alloc.Keys)
    && forall a :: a in alloc ==> a in it.slots && Enumerates(it.slots[a], alloc[a].storage.Keys)
  }

  function AddressKey(a: Address): int { Num(a) }
  function WordKey(w: Word): int { Num(w) }

  function SortedAddresses(s: seq<Address>): seq<Address> { Sort(AddressKey, s) }
  function SortedSlots(s: seq<Word>): seq<Word> { Sort(WordKey, s) }

  lemma {:induction false} EnumerationBag<K(!new)>(s: seq<K>, t: seq<K>, keys: set<K>)
    requires Enumerates(s, keys) && Enumerates(t, keys)
    ensures multiset(s) == multiset(t)
  {
    forall k ensures multiset(s)[k] == multiset(t)[k] {
      OnceInBag(s, k);
      OnceInBag(t, k);
    }
  }

  lemma {:induction false} OnceInBag<K>(s: seq<K>, k: K)
    requires forall i, j :: 0 <= i < j < |s| ==> s[i] != s[j]
    ensures multiset(s)[k] == if k in s then 1 else 0
  {
    if |s| > 0 {
      var front, last := s[..|s| - 1], s[|s| - 1];
      assert s == front + [last];
      OnceInBag(front, k);
      assert multiset(s) == multiset(front) + multiset{last};
    }
  }

  /** Sorting by byte order gives one result for all iteration orders. */
  lemma SortedOnce<K(!new)>(key: K -> int, s: seq<K>, t: seq<K>, keys: set<K>)
    requires Enumerates(s, keys) && Enumerates(t, keys)
    requires forall x, y :: x in keys && y in keys && key(x) == key(y) ==> x == y
    ensures Sort(key, s) == Sort(key, t) && Enumerates(Sort(key, s), keys)
  {
    EnumerationBag(s, t, keys);
    SortOrders(key, s);
    SortOrders(key, t);
    var u := Sort(key, t);
    forall k: K ensures k in u <==> k in keys {
      assert k in multiset(u) <==> k in multiset(t);
    }
    forall i, j | 0 <= i < j < |u| ensures u[i] != u[j] && key(u[i]) < key(u[j]) {
      if u[i] == u[j] {
        TwiceInBag(u, i, j);
        OnceInBag(t, u[i]);
        assert false;
      }
      assert key(u[i]) <= key(u[j]) && u[i] in keys && u[j] in keys;
    }
    SortIsUnique(key, s, u);
  }

  lemma TwiceInBag<K>(s: seq<K>, i: nat, j: nat)
    requires i < j < |s| && s[i] == s[j]
    ensures multiset(s)[s[i]] >= 2
  {
    assert s == s[..j] + [s[j]] + s[j + 1..];
    assert s[i] in s[..j];
    assert multiset(s) == multiset(s[..j]) + multiset{s[j]} + multiset(s[j + 1..]);
  }

  // ---------------------------------------------------------------- the changes

  function SlotChanges(a: Address, storage: map<Word, Word>, slots: seq<Word>): seq<StateChange>
    requires forall k :: k in slots ==> k in storage
  {
    seq(|slots|, i requires 0 <= i < |slots| => Storage(a, slots[i], ZERO_WORD, storage[slots[i]]))
  }

  /** The changes reported for one account, in the order of the hooks. */
  function AccountChanges(a: Address, acc: Account, slots: seq<Word>, hash: Bytes -> Word): seq<StateChange>
    requires forall k :: k in slots ==> k in acc.storage
  {
    (if acc.balance != 0 then [Balance(a, 0, acc.balance, REASON_GENESIS_BALANCE)] else [])
    + (if |acc.code| > 0 then [Code(a, ZERO_WORD, hash(acc.code), [], acc.code)] else [])
    + (if acc.nonce > 0 then [Nonce(a, 0, acc.nonce)] else [])
    + SlotChanges(a, acc.storage, slots)
  }

  function SlotsOf(it: Iteration, alloc: Alloc, a: Address): seq<Word> {
    if a in it.slots then SortedSlots(it.slots[a]) else []
  }

  ghost predicate SlotsKnown(it: Iteration, alloc: Alloc, addresses: seq<Address>) {
    forall a :: a in addresses ==> a in alloc && forall k :: k in SlotsOf(it, alloc, a) ==> k in alloc[a].storage
  }

  ghost function ChangesOf(it: Iteration, alloc: Alloc, addresses: seq<Address>, hash: Bytes -> Word): seq<StateChange>
    requires SlotsKnown(it, alloc, addresses)
  {
    if |addresses| == 0 then []
    else
      var front, a := addresses[..|addresses| - 1], addresses[|addresses| - 1];
      assert SlotsKnown(it, alloc, front);
      ChangesOf(it, alloc, front, hash) + AccountChanges(a, alloc[a], SlotsOf(it, alloc, a), hash)
  }

  lemma SlotsSorted(it: Iteration, alloc: Alloc, a: Address)
    requires IterationOf(it, alloc) && a in alloc
    ensures Enumerates(SlotsOf(it, alloc, a), alloc[a].storage.Keys)
  {
    forall x: Word, y: Word | Num(x) == Num(y) ensures x == y { LexIsNumeric(x, y); }
    SortedOnce(WordKey, it.slots[a], it.slots[a], alloc[a].storage.Keys);
  }

  lemma AllSlotsKnown(it: Iteration, alloc: Alloc)
    requires IterationOf(it, alloc)
    ensures SlotsKnown(it, alloc, SortedAddresses(it.addresses))
            && Enumerates(SortedAddresses(it.addresses), alloc.Keys)
  {
    forall x: Address, y: Address | Num(x) == Num(y) ensures x == y { LexIsNumeric(x, y); }
    SortedOnce(AddressKey, it.addresses, it.addresses, alloc.Keys);
    forall a | a in SortedAddresses(it.addresses)
      ensures a in alloc && forall k :: k in SlotsOf(it, alloc, a) ==> k in alloc[a].storage
    {
      SlotsSorted(it, alloc, a);
    }
  }

  /** All changes of the genesis block. */
  ghost function GenesisChanges(it: Iteration, alloc: Alloc, hash: Bytes -> Word): seq<StateChange>
    requires IterationOf(it, alloc)
  {
    AllSlotsKnown(it, alloc);
    ChangesOf(it, alloc, SortedAddresses(it.addresses), hash)
  }

  lemma {:induction false} SameChanges(it: Iteration, it': Iteration, alloc: Alloc, addresses: seq<Address>,
                                       hash: Bytes -> Word)
    requires SlotsKnown(it, alloc, addresses) && SlotsKnown(it', alloc, addresses)
    requires forall a :: a in addresses ==> SlotsOf(it, alloc, a) == SlotsOf(it', alloc, a)
    ensures ChangesOf(it, alloc, addresses, hash) == ChangesOf(it', alloc, addresses, hash)
    decreases |addresses|
  {
    if |addresses| > 0 {
      var front := addresses[..|addresses| - 1];
      assert SlotsKnown(it, alloc, front) && SlotsKnown(it', alloc, front);
      SameChanges(it, it', alloc, front, hash);
    }
  }

  /** The reported changes, and so the whole genesis block, do not depend on map iteration order. */
  lemma IterationOrderIrrelevant(it: Iteration, it': Iteration, alloc: Alloc, hash: Bytes -> Word)
    requires IterationOf(it, alloc) && IterationOf(it', alloc)
    ensures GenesisChanges(it, alloc, hash) == GenesisChanges(it', alloc, hash)
  {
    hide Sort;
    AllSlotsKnown(it, alloc);
    AllSlotsKnown(it', alloc);
    forall x: Address, y: Address | Num(x) == Num(y) ensures x == y { LexIsNumeric(x, y); }
    forall x: Word, y: Word | Num(x) == Num(y) ensures x == y { LexIsNumeric(x, y); }
    SortedOnce(AddressKey, it.addresses, it'.addresses, alloc.Keys);
    forall a | a in alloc ensures SlotsOf(it, alloc, a) == SlotsOf(it', alloc, a) {
      SortedOnce(WordKey, it.slots[a], it'.slots[a], alloc[a].storage.Keys);
    }
    SameChanges(it, it', alloc, SortedAddresses(it.addresses), hash);
  }

  // ---------------------------------------------------------------- replaying changes

  /** Account state as far as changes tell it; absent entries are zero or empty. */
  datatype Ledger = Ledger(balance: map<Bytes, nat>, nonce: map<Bytes, nat>, code: map<Bytes, Bytes>,
                           storage: map<Bytes, map<Word, Word>>)

  const EMPTY_LEDGER := Ledger(map[], map[], map[], map[])

  function Slots(l: Ledger, a: Bytes): map<Word, Word> { if a in l.storage then l.storage[a] else map[] }

  function NonZero(storage: map<Word, Word>, slots: set<Word>): map<Word, Word> {
    map k | k in slots && k in storage && !IsZero(storage[k]) :: storage[k]
  }

  function Apply(l: Ledger, b: Body): Ledger {
    match b
    case Balance(a, _, n, _) => l.(balance := l.balance[a := n])
    case Nonce(a, _, n) => l.(nonce := l.nonce[a := n])
    case Code(a, _, _, _, code) => l.(code := l.code[a := code])
    case Storage(a, k, _, v) => l.(storage := l.storage[a := Slots(l, a)[k := v]])
    case Log(_, _, _) => l
  }

  function ApplyAll(l: Ledger, bs: seq<StateChange>): Ledger {
    if |bs| == 0 then l
    else
      var b := bs[|bs| - 1];
      if IsNoOp(b) then ApplyAll(l, bs[..|bs| - 1]) else Apply(ApplyAll(l, bs[..|bs| - 1]), b)
  }

  ghost function Balances(alloc: Alloc, accounts: set<Address>): map<Bytes, nat> {
    map a | a in accounts && a in alloc && alloc[a].balance != 0 :: alloc[a].balance
  }

  ghost function Nonces(alloc: Alloc, accounts: set<Address>): map<Bytes, nat> {
    map a | a in accounts && a in alloc && alloc[a].nonce != 0 :: alloc[a].nonce
  }

  ghost function Codes(alloc: Alloc, accounts: set<Address>): map<Bytes, Bytes> {
    map a | a in accounts && a in alloc && |alloc[a].code| > 0 :: alloc[a].code
  }

  function Stored(acc: Account): map<Word, Word> { NonZero(acc.storage, acc.storage.Keys) }

  ghost function Storages(alloc: Alloc, accounts: set<Address>): map<Bytes, map<Word, Word>> {
    map a | a in accounts && a in alloc && Stored(alloc[a]) != map[] :: Stored(alloc[a])
  }

  /** What an allocation amounts to: non-zero balances and nonces, non-empty code, non-zero storage values. */
  ghost function Normalised(alloc: Alloc, accounts: set<Address>): Ledger {
    Ledger(Balances(alloc, accounts), Nonces(alloc, accounts), Codes(alloc, accounts), Storages(alloc, accounts))
  }

  ghost predicate HashesNonZero(alloc: Alloc, hash: Bytes -> Word) {
    forall a :: a in alloc && |alloc[a].code| > 0 ==> !IsZero(hash(alloc[a].code))
  }

  lemma {:induction false} ApplyJoin(l: Ledger, a: seq<StateChange>, b: seq<StateChange>)
    ensures ApplyAll(l, a + b) == ApplyAll(ApplyAll(l, a), b)
    decreases |b|
  {
    if |b| == 0 {
      assert a + b == a;
    } else {
      assert (a + b)[..|a + b| - 1] == a + b[..|b| - 1];
      ApplyJoin(l, a, b[..|b| - 1]);
    }
  }

  function Elements(s: seq<Word>): set<Word> { set k | k in s }

  lemma NonZeroPush(storage: map<Word, Word>, slots: set<Word>, k: Word)
    requires k in storage
    ensures NonZero(storage, slots + {k})
         == if IsZero(storage[k]) then NonZero(storage, slots) else NonZero(storage, slots)[k := storage[k]]
    ensures !IsZero(storage[k]) ==> NonZero(storage, slots + {k}) != map[]
  {
    hide IsZero;
    if !IsZero(storage[k]) {
      assert k in NonZero(storage, slots + {k});
    }
  }

  function WithSlots(l: Ledger, a: Address, m: map<Word, Word>): Ledger {
    if m == map[] then l else l.(storage := l.storage[a := Slots(l, a) + m])
  }

  lemma WithSlotsPush(l: Ledger, a: Address, m: map<Word, Word>, k: Word, v: Word)
    ensures var l1 := WithSlots(l, a, m);
      l1.(storage := l1.storage[a := Slots(l1, a)[k := v]]) == WithSlots(l, a, m[k := v])
  {
    assert k in m[k := v];
    assert Slots(l, a) + m[k := v] == (Slots(l, a) + m)[k := v];
    assert Slots(l, a) + map[] == Slots(l, a);
  }

  lemma {:induction false} ApplySlots(l: Ledger, a: Address, storage: map<Word, Word>, slots: seq<Word>)
    requires forall k :: k in slots ==> k in storage
    ensures ApplyAll(l, SlotChanges(a, storage, slots)) == WithSlots(l, a, NonZero(storage, Elements(slots)))
    decreases |slots|
  {
    hide WithSlots, NonZero;
    var bs := SlotChanges(a, storage, slots);
    if |slots| == 0 {
      NothingStored(l, a, storage);
    } else {
      var front, k := slots[..|slots| - 1], slots[|slots| - 1];
      assert bs[..|bs| - 1] == SlotChanges(a, storage, front);
      ApplySlots(l, a, storage, front);
      assert Elements(slots) == Elements(front) + {k};
      NonZeroPush(storage, Elements(front), k);
      WithSlotsPush(l, a, NonZero(storage, Elements(front)), k, storage[k]);
    }
  }

  lemma NothingStored(l: Ledger, a: Address, storage: map<Word, Word>)
    ensures WithSlots(l, a, NonZero(storage, Elements([]))) == l
  {
  }

  /** The ledger after one more account. */
  ghost function WithAccount(l: Ledger, a: Address, acc: Account): Ledger {
    WithSlots(l.(balance := if acc.balance != 0 then l.balance[a := acc.balance] else l.balance,
                 nonce := if acc.nonce != 0 then l.nonce[a := acc.nonce] else l.nonce,
                 code := if |acc.code| > 0 then l.code[a := acc.code] else l.code),
              a, Stored(acc))
  }

  lemma ApplyFour(l: Ledger, b: seq<StateChange>, c: seq<StateChange>, n: seq<StateChange>, s: seq<StateChange>)
    ensures ApplyAll(l, b + c + n + s) == ApplyAll(ApplyAll(ApplyAll(ApplyAll(l, b), c), n), s)
  {
    hide ApplyAll;
    ApplyJoin(l, b + c + n, s);
    ApplyJoin(l, b + c, n);
    ApplyJoin(l, b, c);
  }

  lemma ApplyAccount(l: Ledger, a: Address, acc: Account, slots: seq<Word>, hash: Bytes -> Word)
    requires Enumerates(slots, acc.storage.Keys) && (|acc.code| > 0 ==> !IsZero(hash(acc.code)))
    ensures ApplyAll(l, AccountChanges(a, acc, slots, hash)) == WithAccount(l, a, acc)
  {
    hide ApplyAll, SlotChanges, WithSlots, NonZero;
    var b: seq<StateChange> := if acc.balance != 0 then [Balance(a, 0, acc.balance, REASON_GENESIS_BALANCE)] else [];
    var c: seq<StateChange> := if |acc.code| > 0 then [Code(a, ZERO_WORD, hash(acc.code), [], acc.code)] else [];
    var n: seq<StateChange> := if acc.nonce > 0 then [Nonce(a, 0, acc.nonce)] else [];
    ApplyFour(l, b, c, n, SlotChanges(a, acc.storage, slots));
    ApplyOne(l, b);
    var l1 := ApplyAll(l, b);
    ApplyOne(l1, c);
    var l2 := ApplyAll(l1, c);
    ApplyOne(l2, n);
    ApplySlots(ApplyAll(l2, n), a, acc.storage, slots);
    assert Elements(slots) == acc.storage.Keys;
  }

  lemma ApplyOne(l: Ledger, bs: seq<StateChange>)
    requires |bs| <= 1
    ensures ApplyAll(l, bs) == if |bs| == 0 || IsNoOp(bs[0]) then l else Apply(l, bs[0])
  {
    if |bs| == 1 {
      assert bs[..0] == [];
    }
  }

  lemma {:induction false} ApplyAccounts(it: Iteration, alloc: Alloc, addresses: seq<Address>, hash: Bytes -> Word)
    requires IterationOf(it, alloc) && SlotsKnown(it, alloc, addresses) && HashesNonZero(alloc, hash)
    requires forall i, j :: 0 <= i < j < |addresses| ==> addresses[i] != addresses[j]
    ensures var accounts := set a | a in addresses;
      ApplyAll(EMPTY_LEDGER, ChangesOf(it, alloc, addresses, hash)) == Normalised(alloc, accounts)
    decreases |addresses|
  {
    hide AccountChanges, SlotsOf;
    var accounts := set a | a in addresses;
    if |addresses| == 0 {
    } else {
      var front, a := addresses[..|addresses| - 1], addresses[|addresses| - 1];
      assert SlotsKnown(it, alloc, front);
      ApplyAccounts(it, alloc, front, hash);
      SlotsSorted(it, alloc, a);
      var before := ApplyAll(EMPTY_LEDGER, ChangesOf(it, alloc, front, hash));
      ApplyJoin(EMPTY_LEDGER, ChangesOf(it, alloc, front, hash),
                AccountChanges(a, alloc[a], SlotsOf(it, alloc, a), hash));
      ApplyAccount(before, a, alloc[a], SlotsOf(it, alloc, a), hash);
      var earlier := set x | x in front;
      assert accounts == earlier + {a} && a !in earlier;
      OneMoreAccount(alloc, earlier, a);
    }
  }

  lemma OneMoreEntry(alloc: Alloc, accounts: set<Address>, a: Address)
    requires a in alloc
    ensures var acc, more := alloc[a], accounts + {a};
      && Balances(alloc, more) == (if acc.balance != 0 then Balances(alloc, accounts)[a := acc.balance]
                                   else Balances(alloc, accounts))
      && Nonces(alloc, more) == (if acc.nonce != 0 then Nonces(alloc, accounts)[a := acc.nonce]
                                 else Nonces(alloc, accounts))
      && Codes(alloc, more) == if |acc.code| > 0 then Codes(alloc, accounts)[a := acc.code] else Codes(alloc, accounts)
  {
  }

  lemma OneMoreStorage(alloc: Alloc, accounts: set<Address>, a: Address)
    requires a in alloc
    ensures var m := Stored(alloc[a]);
      Storages(alloc, accounts + {a}) == if m == map[] then Storages(alloc, accounts)
                                         else Storages(alloc, accounts)[a := m]
  {
    hide Stored;
  }

  lemma OneMoreAccount(alloc: Alloc, accounts: set<Address>, a: Address)
    requires a in alloc && a !in accounts
    ensures WithAccount(Normalised(alloc, accounts), a, alloc[a]) == Normalised(alloc, accounts + {a})
  {
    hide Stored, Balances, Nonces, Codes;
    OneMoreEntry(alloc, accounts, a);
    OneMoreStorage(alloc, accounts, a);
    assert map[] + Stored(alloc[a]) == Stored(alloc[a]);
    assert a !in Storages(alloc, accounts);
  }

  /** Replaying the reported changes from nothing rebuilds the allocation. */
  lemma ChangesRebuild(it: Iteration, alloc: Alloc, hash: Bytes -> Word)
    requires IterationOf(it, alloc) && HashesNonZero(alloc, hash)
    ensures ApplyAll(EMPTY_LEDGER, GenesisChanges(it, alloc, hash)) == Normalised(alloc, alloc.Keys)
  {
    hide ApplyAll, ChangesOf, Normalised;
    AllSlotsKnown(it, alloc);
    ApplyAccounts(it, alloc, SortedAddresses(it.addresses), hash);
    assert (set a | a in SortedAddresses(it.addresses)) == alloc.Keys;
  }
}
