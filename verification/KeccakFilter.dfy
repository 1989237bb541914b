/** The filter that keeps only the KECCAK256 preimages explaining a written storage slot
    (keccak_filter.go). The declarative half describes the kept hashes as those reachable, over
    a bounded number of edges, from the storage keys; the imperative half is the source's
    breadth-first search, its binary search and its window scan, proved to compute exactly that. */
module KeccakFilter {
  import opened Bytes
  import opened Wrappers

  const MAX_DEPTH := 16
  const OFFSET_BOUND := 0x1_0000_0000_0000_0000

  /** A preimage recorded during execution, with the index of the call that hashed it. */
  datatype Recorded = Recorded(callIndex: nat, hash: Word, preimage: Bytes)

  // ---------------------------------------------------------------- specification

  ghost function Hashes(recorded: seq<Recorded>): set<Word> {
    set r | r in recorded :: r.hash
  }

  /** The preimage that counts for a hash is the one recorded first. */
  function FirstPreimage(recorded: seq<Recorded>, h: Word): Bytes {
    if |recorded| == 0 then []
    else if recorded[0].hash == h then recorded[0].preimage
    else FirstPreimage(recorded[1..], h)
  }

  /** `base` is the slot base of `key`: the numerically nearest hash at or below it, less than 2^64 away. */
  ghost predicate IsBase(hashes: set<Word>, key: Word, base: Word) {
    && base in hashes
    && Num(base) <= Num(key) < Num(base) + OFFSET_BOUND
    && forall h :: h in hashes && Num(h) <= Num(key) ==> Num(h) <= Num(base)
  }

  ghost predicate NoRepeats<T>(s: seq<T>) {
    forall i, j :: 0 <= i < j < |s| ==> s[i] != s[j]
  }

  /** Offsets of a preimage at which an inner hash is looked for: the aligned words, then the last 32 bytes
      when the length is not a multiple of 32. */
  function WindowOffsets(length: nat): (offsets: seq<nat>)
    ensures forall i :: 0 <= i < |offsets| ==> offsets[i] + WORD_SIZE <= length
  {
    seq(length / WORD_SIZE, i requires 0 <= i < length / WORD_SIZE => i * WORD_SIZE)
    + if length > WORD_SIZE && length % WORD_SIZE != 0 then [length - WORD_SIZE] else []
  }

  /** A window is scanned once, and the windows are the aligned words and the last word of a longer preimage. */
  lemma WindowsOnce(length: nat)
    ensures NoRepeats(WindowOffsets(length))
    ensures forall o :: o in WindowOffsets(length)
                   <==> 0 <= o <= length - WORD_SIZE && (o % WORD_SIZE == 0 || o == length - WORD_SIZE)
  {
    var offsets, whole := WindowOffsets(length), length / WORD_SIZE;
    forall o | 0 <= o <= length - WORD_SIZE && (o % WORD_SIZE == 0 || o == length - WORD_SIZE)
      ensures o in offsets
    {
      var i := if o % WORD_SIZE == 0 then o / WORD_SIZE else whole;
      assert offsets[i] == o;
    }
  }

  function Candidates(preimage: Bytes): (words: seq<Word>) {
    var offsets := WindowOffsets(|preimage|);
    seq(|offsets|, i requires 0 <= i < |offsets| => preimage[offsets[i]..offsets[i] + WORD_SIZE])
  }

  /** `h` is the slot base of one of `words` that is 32 bytes long. */
  ghost predicate BaseOfAny(words: seq<Bytes>, recorded: seq<Recorded>, h: Word) {
    exists word :: word in words && |word| == WORD_SIZE && IsBase(Hashes(recorded), word, h)
  }

  /** `h` leads to `inner` when a candidate word of its preimage has `inner` as slot base. */
  ghost predicate Edge(recorded: seq<Recorded>, h: Word, inner: Word) {
    BaseOfAny(Candidates(FirstPreimage(recorded, h)), recorded, inner)
  }

  ghost predicate IsPath(recorded: seq<Recorded>, p: seq<Word>) {
    forall i :: 0 < i < |p| ==> Edge(recorded, p[i - 1], p[i])
  }

  /** `p` leads from the base of a storage key to `h` over at most `bound` edges. */
  ghost predicate PathTo(keys: seq<Bytes>, recorded: seq<Recorded>, p: seq<Word>, bound: nat, h: Word) {
    && 0 < |p| <= bound + 1 && p[|p| - 1] == h
    && BaseOfAny(keys, recorded, p[0]) && IsPath(recorded, p)
  }

  ghost predicate Within(keys: seq<Bytes>, recorded: seq<Recorded>, bound: nat, h: Word) {
    exists p :: PathTo(keys, recorded, p, bound, h)
  }

  /** The hashes whose preimages are kept: those within `MAX_DEPTH` levels of a storage key. */
  ghost function Kept(keys: seq<Bytes>, recorded: seq<Recorded>): (kept: set<Word>)
    ensures forall h :: h in kept <==> Within(keys, recorded, MAX_DEPTH, h)
  {
    WithinAreHashes(keys, recorded, MAX_DEPTH);
    set h | h in Hashes(recorded) && Within(keys, recorded, MAX_DEPTH, h)
  }

  lemma WithinAreHashes(keys: seq<Bytes>, recorded: seq<Recorded>, bound: nat)
    ensures forall h :: Within(keys, recorded, bound, h) ==> h in Hashes(recorded)
  {
    forall h | Within(keys, recorded, bound, h) ensures h in Hashes(recorded) {
      var p :| PathTo(keys, recorded, p, bound, h);
      assert |p| == 1 || Edge(recorded, p[|p| - 2], h);
    }
  }

  // ---------------------------------------------------------------- reachability, one level at a time

  lemma WithinZero(keys: seq<Bytes>, recorded: seq<Recorded>, h: Word)
    ensures Within(keys, recorded, 0, h) <==> BaseOfAny(keys, recorded, h)
  {
    if BaseOfAny(keys, recorded, h) {
      assert PathTo(keys, recorded, [h], 0, h);
    }
  }

  /** One level more: the old level, and everything one edge away from it. */
  lemma WithinStep(keys: seq<Bytes>, recorded: seq<Recorded>, bound: nat, h: Word)
    ensures Within(keys, recorded, bound + 1, h)
       <==> Within(keys, recorded, bound, h)
            || exists g :: Within(keys, recorded, bound, g) && Edge(recorded, g, h)
  {
    if Within(keys, recorded, bound + 1, h) {
      ShortenPath(keys, recorded, bound, h);
    }
    if Within(keys, recorded, bound, h) {
      var p :| PathTo(keys, recorded, p, bound, h);
      assert PathTo(keys, recorded, p, bound + 1, h);
    }
    if g :| Within(keys, recorded, bound, g) && Edge(recorded, g, h) {
      LengthenPath(keys, recorded, bound, g, h);
    }
  }

  lemma ShortenPath(keys: seq<Bytes>, recorded: seq<Recorded>, bound: nat, h: Word)
    requires Within(keys, recorded, bound + 1, h)
    ensures Within(keys, recorded, bound, h)
         || exists g :: Within(keys, recorded, bound, g) && Edge(recorded, g, h)
  {
    var p :| PathTo(keys, recorded, p, bound + 1, h);
    if |p| <= bound + 1 {
      assert PathTo(keys, recorded, p, bound, h);
    } else {
      var front, g := p[..|p| - 1], p[|p| - 2];
      assert PathTo(keys, recorded, front, bound, g);
      assert Within(keys, recorded, bound, g) && Edge(recorded, g, p[|p| - 1]);
    }
  }

  lemma LengthenPath(keys: seq<Bytes>, recorded: seq<Recorded>, bound: nat, g: Word, h: Word)
    requires Within(keys, recorded, bound, g) && Edge(recorded, g, h)
    ensures Within(keys, recorded, bound + 1, h)
  {
    var p :| PathTo(keys, recorded, p, bound, g);
    var longer := p + [h];
    forall i | 0 < i < |longer| ensures Edge(recorded, longer[i - 1], longer[i]) {
      if i < |p| {
        assert Edge(recorded, p[i - 1], p[i]);
      }
    }
    assert PathTo(keys, recorded, longer, bound + 1, h);
  }

  /** Once a level adds nothing, no later level does. */
  lemma {:induction false} Saturated(keys: seq<Bytes>, recorded: seq<Recorded>, level: nat, bound: nat)
    requires level <= bound
    requires forall h, g :: Within(keys, recorded, level, g) && Edge(recorded, g, h) ==>
      Within(keys, recorded, level, h)
    ensures forall h :: Within(keys, recorded, bound, h) <==> Within(keys, recorded, level, h)
    decreases bound
  {
    if level < bound {
      Saturated(keys, recorded, level, bound - 1);
      forall h ensures Within(keys, recorded, bound, h) <==> Within(keys, recorded, level, h) {
        WithinStep(keys, recorded, bound - 1, h);
      }
    }
  }

  // ---------------------------------------------------------------- the kept hashes, without candidates and edges

  /** `w` is an aligned word of `p`, or its last 32 bytes. */
  ghost predicate IsWindow(p: Bytes, w: Word) {
    exists o :: 0 <= o <= |p| - 32 && (o % 32 == 0 || o == |p| - 32) && p[o..o + 32] == w
  }

  /** `p` was the first preimage recorded of `h`. */
  ghost predicate FirstRecorded(recorded: seq<Recorded>, h: Word, p: Bytes) {
    exists i :: 0 <= i < |recorded| && recorded[i].hash == h && recorded[i].preimage == p
                && forall j :: 0 <= j < i ==> recorded[j].hash != h
  }

  /** Of the recorded hashes, `h` is the nearest at or below `key`, less than 2^64 away. */
  ghost predicate Nearest(recorded: seq<Recorded>, key: Word, h: Word) {
    && (exists i :: 0 <= i < |recorded| && recorded[i].hash == h)
    && Num(h) <= Num(key) < Num(h) + 0x1_0000_0000_0000_0000
    && forall i :: 0 <= i < |recorded| && Num(recorded[i].hash) <= Num(key) ==> Num(recorded[i].hash) <= Num(h)
  }

  /** `h` is nearest to a word of the first preimage recorded of `g`. */
  ghost predicate Leads(recorded: seq<Recorded>, g: Word, h: Word) {
    exists p: Bytes, w: Word :: FirstRecorded(recorded, g, p) && IsWindow(p, w) && Nearest(recorded, w, h)
  }

  /** `h` is nearest to a storage key, or within `n` steps to a word of the first preimage of a hash so found. */
  ghost predicate Reaches(keys: seq<Bytes>, recorded: seq<Recorded>, n: nat, h: Word) {
    if n == 0 then exists key :: key in keys && |key| == 32 && Nearest(recorded, key, h)
    else
      || Reaches(keys, recorded, n - 1, h)
      || exists g :: Reaches(keys, recorded, n - 1, g) && Leads(recorded, g, h)
  }

  /** The candidates of a preimage are its aligned words and its last 32 bytes. */
  lemma CandidatesAre(p: Bytes, w: Word)
    ensures w in Candidates(p) <==> IsWindow(p, w)
  {
    var offsets := WindowOffsets(|p|);
    WindowsOnce(|p|);
    if IsWindow(p, w) {
      var o :| 0 <= o <= |p| - 32 && (o % 32 == 0 || o == |p| - 32) && p[o..o + 32] == w;
      assert o in offsets;
      var i :| 0 <= i < |offsets| && offsets[i] == o;
      assert Candidates(p)[i] == w;
    }
    if w in Candidates(p) {
      var i :| 0 <= i < |Candidates(p)| && Candidates(p)[i] == w;
      var o := offsets[i];
      assert o in offsets;
      assert 0 <= o <= |p| - 32 && (o % 32 == 0 || o == |p| - 32) && p[o..o + 32] == w;
    }
  }

  lemma AllCandidatesAre(p: Bytes)
    ensures forall w: Word :: w in Candidates(p) <==> IsWindow(p, w)
  {
    forall w: Word ensures w in Candidates(p) <==> IsWindow(p, w) {
      CandidatesAre(p, w);
    }
  }

  lemma {:induction false} FirstIsFirst(recorded: seq<Recorded>, h: Word, p: Bytes)
    ensures FirstRecorded(recorded, h, p) <==> h in Hashes(recorded) && FirstPreimage(recorded, h) == p
    decreases |recorded|
  {
    if |recorded| > 0 {
      var rest := recorded[1..];
      FirstIsFirst(rest, h, p);
      assert recorded == [recorded[0]] + rest;
      if recorded[0].hash == h {
        assert recorded[0] in recorded;
      } else if FirstRecorded(rest, h, p) {
        var i :| 0 <= i < |rest| && rest[i].hash == h && rest[i].preimage == p
                 && forall j :: 0 <= j < i ==> rest[j].hash != h;
        assert recorded[i + 1] == rest[i];
        assert forall j :: 0 <= j < i + 1 ==> recorded[j].hash != h;
      }
    }
  }

  lemma NearestIsBase(recorded: seq<Recorded>, key: Word, h: Word)
    ensures Nearest(recorded, key, h) <==> IsBase(Hashes(recorded), key, h)
  {
    assert forall i :: 0 <= i < |recorded| ==> recorded[i] in recorded && recorded[i].hash in Hashes(recorded);
    if IsBase(Hashes(recorded), key, h) {
      var r :| r in recorded && r.hash == h;
      var i :| 0 <= i < |recorded| && recorded[i] == r;
    }
  }

  lemma BaseOfAnyIs(words: seq<Bytes>, recorded: seq<Recorded>, h: Word)
    ensures BaseOfAny(words, recorded, h) <==> exists w :: w in words && |w| == 32 && Nearest(recorded, w, h)
  {
    hide Nearest, IsBase;
    if BaseOfAny(words, recorded, h) {
      var w :| w in words && |w| == WORD_SIZE && IsBase(Hashes(recorded), w, h);
      NearestIsBase(recorded, w, h);
    }
    if w :| w in words && |w| == 32 && Nearest(recorded, w, h) {
      NearestIsBase(recorded, w, h);
    }
  }

  lemma EdgeIs(recorded: seq<Recorded>, g: Word, h: Word)
    ensures Edge(recorded, g, h) <==> Leads(recorded, g, h)
  {
    hide Nearest, IsWindow, FirstRecorded, Candidates;
    var p := FirstPreimage(recorded, g);
    BaseOfAnyIs(Candidates(p), recorded, h);
    FirstIsFirst(recorded, g, p);
    if Edge(recorded, g, h) {
      var w :| w in Candidates(p) && |w| == 32 && Nearest(recorded, w, h);
      CandidatesAre(p, w);
      NothingRecorded(recorded, g);
      assert FirstRecorded(recorded, g, p) && IsWindow(p, w) && Nearest(recorded, w, h);
    }
    if p': Bytes, w: Word :| FirstRecorded(recorded, g, p') && IsWindow(p', w) && Nearest(recorded, w, h) {
      FirstIsFirst(recorded, g, p');
      CandidatesAre(p', w);
    }
  }

  lemma {:induction false} NothingRecorded(recorded: seq<Recorded>, g: Word)
    ensures g !in Hashes(recorded) ==> Candidates(FirstPreimage(recorded, g)) == []
    decreases |recorded|
  {
    if |recorded| > 0 && g !in Hashes(recorded) {
      assert recorded[0] in recorded;
      assert forall r :: r in recorded[1..] ==> r in recorded;
      NothingRecorded(recorded[1..], g);
    }
  }

  lemma {:induction false} ReachesIsWithin(keys: seq<Bytes>, recorded: seq<Recorded>, n: nat, h: Word)
    ensures Reaches(keys, recorded, n, h) <==> Within(keys, recorded, n, h)
    decreases n, 0
  {
    hide Nearest, Leads, Within, Edge;
    if n == 0 {
      WithinZero(keys, recorded, h);
      BaseOfAnyIs(keys, recorded, h);
    } else {
      WithinStep(keys, recorded, n - 1, h);
      EdgesAre(recorded, h);
      ReachesAreWithin(keys, recorded, n - 1);
    }
  }

  lemma EdgesAre(recorded: seq<Recorded>, h: Word)
    ensures forall g: Word :: Edge(recorded, g, h) <==> Leads(recorded, g, h)
  {
    hide Edge, Leads;
    forall g: Word ensures Edge(recorded, g, h) <==> Leads(recorded, g, h) {
      EdgeIs(recorded, g, h);
    }
  }

  lemma {:induction false} ReachesAreWithin(keys: seq<Bytes>, recorded: seq<Recorded>, n: nat)
    ensures forall h: Word :: Reaches(keys, recorded, n, h) <==> Within(keys, recorded, n, h)
    decreases n, 1
  {
    hide Reaches, Within;
    forall h: Word ensures Reaches(keys, recorded, n, h) <==> Within(keys, recorded, n, h) {
      ReachesIsWithin(keys, recorded, n, h);
    }
  }

  // ---------------------------------------------------------------- binary search

  function Elements(s: seq<Word>): set<Word> {
    set h | h in s
  }

  ghost predicate SortedWords(s: seq<Word>) {
    forall i, j :: 0 <= i < j < |s| ==> LexLess(s[i], s[j])
  }

  lemma SortedNumerically(s: seq<Word>)
    requires SortedWords(s)
    ensures forall i, j :: 0 <= i < j < |s| ==> Num(s[i]) < Num(s[j])
  {
    forall i, j | 0 <= i < j < |s| ensures Num(s[i]) < Num(s[j]) {
      LexIsNumeric(s[i], s[j]);
    }
  }

  /** The slot base of `key`, found by binary search for the first hash above it. */
  method KeccakSlotBase(sorted: seq<Word>, key: Word) returns (base: Option<Word>)
    requires SortedWords(sorted)
    ensures base.Some? ==> IsBase(Elements(sorted), key, base.value)
    ensures base.None? ==> forall b :: !IsBase(Elements(sorted), key, b)
  {
    SortedNumerically(sorted);
    var lo, hi := 0, |sorted|;
    while lo < hi
      invariant 0 <= lo <= hi <= |sorted|
      invariant forall k :: 0 <= k < lo ==> Num(sorted[k]) <= Num(key)
      invariant forall k :: hi <= k < |sorted| ==> Num(sorted[k]) > Num(key)
    {
      var mid := (lo + hi) / 2;
      LexIsNumeric(key, sorted[mid]);
      if LexLess(key, sorted[mid]) {
        hi := mid;
      } else {
        lo := mid + 1;
      }
    }
    ghost var hashes := Elements(sorted);
    if lo == 0 {
      return None;
    }
    var found := sorted[lo - 1];
    assert forall h :: h in hashes && Num(h) <= Num(key) ==> Num(h) <= Num(found);
    if Num(key) - Num(found) < OFFSET_BOUND {
      return Some(found);
    }
    assert found in hashes;
    return None;
  }

  /** At most one hash is the slot base of a key. */
  lemma BaseIsUnique(hashes: set<Word>, key: Word, a: Word, b: Word)
    requires IsBase(hashes, key, a) && IsBase(hashes, key, b)
    ensures a == b
  {
    LexIsNumeric(a, b);
  }

  // ---------------------------------------------------------------- the search

  lemma {:induction false} FirstOfAppend(s: seq<Recorded>, r: Recorded, h: Word)
    ensures FirstPreimage(s + [r], h)
         == if h in Hashes(s) then FirstPreimage(s, h) else if r.hash == h then r.preimage else []
  {
    if |s| > 0 {
      assert (s + [r])[1..] == s[1..] + [r];
      assert s == [s[0]] + s[1..];
      FirstOfAppend(s[1..], r, h);
    }
  }

  /** First-recorded preimage of every hash. */
  method IndexPreimages(recorded: seq<Recorded>) returns (preimages: map<Word, Bytes>)
    ensures preimages.Keys == Hashes(recorded)
    ensures forall h :: h in preimages ==> preimages[h] == FirstPreimage(recorded, h)
  {
    preimages := map[];
    for i := 0 to |recorded|
      invariant preimages.Keys == Hashes(recorded[..i])
      invariant forall h :: h in preimages ==> preimages[h] == FirstPreimage(recorded[..i], h)
    {
      var r := recorded[i];
      assert recorded[..i + 1] == recorded[..i] + [r];
      forall h: Word { FirstOfAppend(recorded[..i], r, h); }
      if r.hash !in preimages {
        preimages := preimages[r.hash := r.preimage];
      }
    }
    assert recorded[..|recorded|] == recorded;
  }

  method InsertWord(sorted: seq<Word>, h: Word) returns (r: seq<Word>)
    requires SortedWords(sorted) && h !in sorted
    ensures SortedWords(r) && Elements(r) == Elements(sorted) + {h}
  {
    SortedNumerically(sorted);
    var i := |sorted|;
    while i > 0 && LexLess(h, sorted[i - 1])
      invariant 0 <= i <= |sorted|
      invariant forall k :: i <= k < |sorted| ==> LexLess(h, sorted[k])
    {
      i := i - 1;
    }
    r := sorted[..i] + [h] + sorted[i..];
    forall k | 0 <= k < i ensures LexLess(sorted[k], h) {
      LexIsNumeric(h, sorted[i - 1]);
      LexIsNumeric(sorted[k], h);
      LexIsNumeric(h, sorted[k]);
    }
    forall g | g in Elements(sorted) + {h} ensures g in r {
    }
  }

  /** All hashes in increasing byte order. */
  method SortHashes(hashes: set<Word>) returns (sorted: seq<Word>)
    ensures SortedWords(sorted) && Elements(sorted) == hashes
  {
    sorted := [];
    var pending := hashes;
    while pending != {}
      invariant SortedWords(sorted)
      invariant Elements(sorted) + pending == hashes && Elements(sorted) !! pending
    {
      var h :| h in pending;
      assert h !in Elements(sorted);
      sorted := InsertWord(sorted, h);
      pending := pending - {h};
    }
  }

  /** The windows of a preimage, scanned as the source does. */
  method InnerKeccakHashCandidates(preimage: Bytes) returns (candidates: seq<Word>)
    ensures candidates == Candidates(preimage) && forall w: Word :: w in candidates <==> IsWindow(preimage, w)
  {
    candidates := [];
    var off := 0;
    while off + WORD_SIZE <= |preimage|
      invariant off % WORD_SIZE == 0 && 0 <= off <= |preimage|
      invariant |candidates| == off / WORD_SIZE
      invariant forall i :: 0 <= i < |candidates| ==>
        i * WORD_SIZE + WORD_SIZE <= |preimage| && candidates[i] == preimage[i * WORD_SIZE..i * WORD_SIZE + WORD_SIZE]
    {
      candidates := candidates + [preimage[off..off + WORD_SIZE]];
      off := off + WORD_SIZE;
    }
    if |preimage| > WORD_SIZE && |preimage| % WORD_SIZE != 0 {
      candidates := candidates + [preimage[|preimage| - WORD_SIZE..]];
    }
    ghost var offsets := WindowOffsets(|preimage|);
    assert |candidates| == |offsets|;
    forall i | 0 <= i < |offsets| ensures candidates[i] == preimage[offsets[i]..offsets[i] + WORD_SIZE] {
      if i == |preimage| / WORD_SIZE {
        assert offsets[i] == |preimage| - WORD_SIZE;
      } else {
        assert offsets[i] == i * WORD_SIZE;
      }
    }
    AllCandidatesAre(preimage);
  }

  /** Marks as kept the slot base of each word, and queues the newly kept ones. */
  method KeepBases(words: seq<Bytes>, ghost recorded: seq<Recorded>, sorted: seq<Word>,
                   kept0: set<Word>, queue0: seq<Word>) returns (kept: set<Word>, queue: seq<Word>)
    requires SortedWords(sorted) && Elements(sorted) == Hashes(recorded)
    requires NoRepeats(queue0) && Elements(queue0) <= kept0
    ensures forall h :: h in kept <==> h in kept0 || BaseOfAny(words, recorded, h)
    ensures NoRepeats(queue) && Elements(queue) == Elements(queue0) + (kept - kept0)
  {
    kept, queue := kept0, queue0;
    for i := 0 to |words|
      invariant forall h :: h in kept <==> h in kept0 || BaseOfAny(words[..i], recorded, h)
      invariant NoRepeats(queue) && Elements(queue) == Elements(queue0) + (kept - kept0)
    {
      var base := None;
      if |words[i]| == WORD_SIZE {
        base := KeccakSlotBase(sorted, words[i]);
      }
      OneMoreWord(words, i, recorded, base);
      if base.Some? && base.value !in kept {
        kept := kept + {base.value};
        queue := queue + [base.value];
      }
    }
    assert words[..|words|] == words;
  }

  lemma OneMoreWord(words: seq<Bytes>, i: nat, recorded: seq<Recorded>, base: Option<Word>)
    requires i < |words|
    requires base.Some? ==> |words[i]| == WORD_SIZE && IsBase(Hashes(recorded), words[i], base.value)
    requires base.None? && |words[i]| == WORD_SIZE ==> forall b :: !IsBase(Hashes(recorded), words[i], b)
    ensures forall h :: BaseOfAny(words[..i + 1], recorded, h)
                   <==> BaseOfAny(words[..i], recorded, h) || base == Some(h)
  {
    assert words[..i + 1] == words[..i] + [words[i]];
    forall h: Word | BaseOfAny(words[..i + 1], recorded, h)
      ensures BaseOfAny(words[..i], recorded, h) || base == Some(h)
    {
      var word :| word in words[..i + 1] && |word| == WORD_SIZE && IsBase(Hashes(recorded), word, h);
      if word !in words[..i] {
        assert word == words[i];
        BaseIsUnique(Hashes(recorded), word, h, base.value);
      }
    }
    forall h: Word | BaseOfAny(words[..i], recorded, h) ensures BaseOfAny(words[..i + 1], recorded, h) {
      var word :| word in words[..i] && |word| == WORD_SIZE && IsBase(Hashes(recorded), word, h);
      assert word in words[..i + 1];
    }
    if base.Some? {
      assert words[i] in words[..i + 1];
    }
  }

  /** State of the search between two levels: the kept hashes are those within `depth` edges, split
      into the expanded ones, which are those of the level before and whose edges stay inside, and the
      frontier. */
  ghost predicate AtLevel(keys: seq<Bytes>, recorded: seq<Recorded>, depth: nat,
                          kept: set<Word>, frontier: seq<Word>, expanded: seq<Word>) {
    && (forall h :: h in kept <==> Within(keys, recorded, depth, h))
    && (depth > 0 ==> forall h :: h in expanded <==> Within(keys, recorded, depth - 1, h))
    && NoRepeats(expanded + frontier)
    && Elements(expanded) + Elements(frontier) == kept
    && forall g, h :: g in expanded && Edge(recorded, g, h) ==> h in kept
  }

  /** State of the search inside a level, once the hashes of `done` are expanded. */
  ghost predicate Expanding(recorded: seq<Recorded>, before: set<Word>, done: seq<Word>,
                            kept: set<Word>, next: seq<Word>) {
    && NoRepeats(next) && Elements(next) == kept - before && before <= kept
    && forall h :: h in kept <==> h in before || exists g :: g in done && Edge(recorded, g, h)
  }

  lemma JoinNoRepeats<T>(a: seq<T>, b: seq<T>)
    requires NoRepeats(a) && NoRepeats(b) && forall x :: x in b ==> x !in a
    ensures NoRepeats(a + b)
  {
    forall i, j | 0 <= i < j < |a + b| ensures (a + b)[i] != (a + b)[j] {
      if i < |a| <= j {
        assert b[j - |a|] in b && a[i] in a;
      }
    }
  }

  lemma LevelDone(keys: seq<Bytes>, recorded: seq<Recorded>, depth: nat, before: set<Word>,
                  frontier: seq<Word>, expanded: seq<Word>, kept: set<Word>, next: seq<Word>)
    requires AtLevel(keys, recorded, depth, before, frontier, expanded)
    requires Expanding(recorded, before, frontier, kept, next)
    ensures AtLevel(keys, recorded, depth + 1, kept, next, expanded + frontier)
  {
    forall h: Word ensures h in kept <==> Within(keys, recorded, depth + 1, h) {
      WithinStep(keys, recorded, depth, h);
      if g :| Within(keys, recorded, depth, g) && Edge(recorded, g, h) {
        assert g in Elements(expanded) || g in Elements(frontier);
      }
      if g :| g in frontier && Edge(recorded, g, h) {
        assert g in Elements(frontier);
      }
    }
    assert Elements(expanded + frontier) == Elements(expanded) + Elements(frontier);
    forall h: Word ensures h in expanded + frontier <==> Within(keys, recorded, depth, h) {
      assert h in before <==> h in Elements(expanded) || h in Elements(frontier);
    }
    forall x | x in next ensures x !in expanded + frontier {
      assert x in Elements(next);
      assert x in Elements(expanded + frontier) ==> x in before;
    }
    JoinNoRepeats(expanded + frontier, next);
  }

  /** An empty frontier means that no deeper level adds anything. */
  lemma EmptyFrontier(keys: seq<Bytes>, recorded: seq<Recorded>, depth: nat, bound: nat, kept: set<Word>,
                      expanded: seq<Word>)
    requires depth <= bound
    requires AtLevel(keys, recorded, depth, kept, [], expanded)
    ensures forall h :: h in kept <==> Within(keys, recorded, bound, h)
    ensures Elements(expanded) == kept
  {
    forall h, g | Within(keys, recorded, depth, g) && Edge(recorded, g, h) ensures Within(keys, recorded, depth, h) {
      assert g in Elements(expanded);
    }
    Saturated(keys, recorded, depth, bound);
  }

  lemma {:induction false} CountDistinct(s: seq<Word>)
    requires NoRepeats(s)
    ensures |Elements(s)| == |s|
  {
    if |s| > 0 {
      var front := s[..|s| - 1];
      assert s == front + [s[|s| - 1]];
      CountDistinct(front);
      assert Elements(s) == Elements(front) + {s[|s| - 1]};
    }
  }

  lemma CountWithin(part: set<Word>, whole: set<Word>)
    requires part <= whole
    ensures |part| <= |whole|
  {
    assert whole == part + (whole - part);
  }

  lemma FrontierIsRecorded(keys: seq<Bytes>, recorded: seq<Recorded>, depth: nat, kept: set<Word>,
                           frontier: seq<Word>, expanded: seq<Word>)
    requires AtLevel(keys, recorded, depth, kept, frontier, expanded)
    ensures Elements(frontier) <= Hashes(recorded)
  {
    WithinAreHashes(keys, recorded, depth);
  }

  /** The search may stop: the depth limit is reached or the frontier is empty. */
  lemma SearchDone(keys: seq<Bytes>, recorded: seq<Recorded>, depth: nat, kept: set<Word>,
                   frontier: seq<Word>, expanded: seq<Word>)
    requires depth <= MAX_DEPTH && (depth == MAX_DEPTH || |frontier| == 0)
    requires AtLevel(keys, recorded, depth, kept, frontier, expanded)
    ensures kept == Kept(keys, recorded)
    ensures forall h :: h in expanded <==> Within(keys, recorded, MAX_DEPTH - 1, h)
    ensures NoRepeats(expanded) && |expanded| <= |Hashes(recorded)|
  {
    if |frontier| == 0 {
      EmptyFrontier(keys, recorded, depth, MAX_DEPTH, kept, expanded);
      if depth < MAX_DEPTH {
        EmptyFrontier(keys, recorded, depth, MAX_DEPTH - 1, kept, expanded);
        assert forall h: Word :: h in expanded <==> h in Elements(expanded);
      }
    }
    WithinAreHashes(keys, recorded, MAX_DEPTH);
    assert forall i :: 0 <= i < |expanded| ==> expanded[i] == (expanded + frontier)[i];
    CountDistinct(expanded);
    CountWithin(Elements(expanded), Hashes(recorded));
  }

  lemma ExpandedOne(recorded: seq<Recorded>, before: set<Word>, done: seq<Word>, g: Word,
                    kept: set<Word>, next: seq<Word>, kept': set<Word>, next': seq<Word>)
    requires Expanding(recorded, before, done, kept, next)
    requires forall h :: h in kept' <==> h in kept || Edge(recorded, g, h)
    requires NoRepeats(next') && Elements(next') == Elements(next) + (kept' - kept)
    ensures Expanding(recorded, before, done + [g], kept', next')
  {
    forall h: Word
      ensures h in kept' <==> h in before || exists g' :: g' in done + [g] && Edge(recorded, g', h)
    {
      if h in kept' {
        if h in kept && h !in before {
          var g' :| g' in done && Edge(recorded, g', h);
          assert g' in done + [g];
        } else if h !in kept {
          assert g in done + [g];
        }
      }
    }
  }

  lemma FirstLevel(keys: seq<Bytes>, recorded: seq<Recorded>, kept: set<Word>, frontier: seq<Word>)
    requires forall h :: h in kept <==> BaseOfAny(keys, recorded, h)
    requires NoRepeats(frontier) && Elements(frontier) == kept
    ensures AtLevel(keys, recorded, 0, kept, frontier, [])
  {
    forall h: Word { WithinZero(keys, recorded, h); }
    assert [] + frontier == frontier;
  }

  /** Expands every hash of the frontier. */
  method ExpandLevel(ghost recorded: seq<Recorded>, preimages: map<Word, Bytes>, sorted: seq<Word>,
                     before: set<Word>, frontier: seq<Word>) returns (kept: set<Word>, next: seq<Word>)
    requires SortedWords(sorted) && Elements(sorted) == Hashes(recorded) == preimages.Keys
    requires forall h :: h in preimages ==> preimages[h] == FirstPreimage(recorded, h)
    requires Elements(frontier) <= preimages.Keys
    ensures Expanding(recorded, before, frontier, kept, next)
  {
    kept, next := before, [];
    for i := 0 to |frontier|
      invariant Expanding(recorded, before, frontier[..i], kept, next)
    {
      assert frontier[i] in Elements(frontier);
      var words := InnerKeccakHashCandidates(preimages[frontier[i]]);
      ghost var kept0, next0 := kept, next;
      kept, next := KeepBases(words, recorded, sorted, kept, next);
      ExpandedOne(recorded, before, frontier[..i], frontier[i], kept0, next0, kept, next);
      assert frontier[..i + 1] == frontier[..i] + [frontier[i]];
    }
    assert frontier[..|frontier|] == frontier;
  }

  /** Breadth-first search from the bases of the storage keys. The result is exactly the declarative
      set; the hashes expanded are those within one level less than the limit, each of them once. */
  method StorageSlotHashes(keys: seq<Bytes>, recorded: seq<Recorded>)
      returns (kept: set<Word>, ghost expanded: seq<Word>)
    ensures kept == Kept(keys, recorded) && forall h :: h in kept <==> Reaches(keys, recorded, 16, h)
    ensures forall h :: h in expanded <==> Reaches(keys, recorded, 15, h)
    ensures NoRepeats(expanded) && |expanded| <= |Hashes(recorded)|
  {
    hide AtLevel, Kept, NoRepeats, Hashes;
    var preimages := IndexPreimages(recorded);
    var sorted := SortHashes(preimages.Keys);
    var frontier: seq<Word>;
    kept, frontier := KeepBases(keys, recorded, sorted, {}, []);
    expanded := [];
    FirstLevel(keys, recorded, kept, frontier);
    var depth := 0;
    while depth < MAX_DEPTH && |frontier| > 0
      invariant 0 <= depth <= MAX_DEPTH
      invariant AtLevel(keys, recorded, depth, kept, frontier, expanded)
    {
      FrontierIsRecorded(keys, recorded, depth, kept, frontier, expanded);
      ghost var before := kept;
      var next: seq<Word>;
      kept, next := ExpandLevel(recorded, preimages, sorted, kept, frontier);
      LevelDone(keys, recorded, depth, before, frontier, expanded, kept, next);
      expanded := expanded + frontier;
      frontier := next;
      depth := depth + 1;
    }
    SearchDone(keys, recorded, depth, kept, frontier, expanded);
    ReachesAreWithin(keys, recorded, 16);
    ReachesAreWithin(keys, recorded, 15);
  }
}
