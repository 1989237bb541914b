/** The completed transaction of a well-formed body is the forest it was made from: numbering, parents,
    intervals, reverts, and the order and place of every change. */
module Trees {
  import opened Bytes
  import opened Wrappers
  import opened Model
  import opened Sorting
  import opened Completion
  import opened Machine
  import opened Ranges
  import opened Forest
  import opened Outline
  import opened Nesting

  // ---------------------------------------------------------------- ancestors and intervals

  /** `a` is call `i` or one of its ancestors, following parent indexes. */
  predicate Ancestor(cs: seq<CallRec>, a: nat, i: nat)
    requires i < |cs|
    decreases i
  {
    a == i || (0 < cs[i].parentIndex <= i && Ancestor(cs, a, cs[i].parentIndex - 1))
  }

  /** Intervals of two calls: inside exactly for an ancestor, otherwise disjoint and in order. */
  ghost predicate WellNested(cs: seq<CallRec>, i: nat, j: nat)
    requires i < j < |cs|
  {
    if Ancestor(cs, i, j) then cs[i].beginOrdinal < cs[j].beginOrdinal < cs[j].endOrdinal < cs[i].endOrdinal
    else cs[i].endOrdinal < cs[j].beginOrdinal
  }

  lemma {:induction false} AncestorContains(cs: seq<CallRec>, lo: nat, hi: nat, a: nat, i: nat)
    requires Laws(cs, 0, 0, lo, hi) && i < |cs| && Ancestor(cs, a, i)
    ensures a <= i
    ensures a < i ==> cs[a].beginOrdinal < cs[i].beginOrdinal && cs[i].endOrdinal < cs[a].endOrdinal
    decreases i
  {
    hide CallPlaced, SiblingLaw, BeginLaw;
    if a != i {
      assert CallLaw(cs, 0, 0, lo, hi, i);
      AncestorContains(cs, lo, hi, a, cs[i].parentIndex - 1);
    }
  }

  /** The root call above `i`. */
  lemma {:induction false} RootAbove(cs: seq<CallRec>, lo: nat, hi: nat, i: nat) returns (r: nat)
    requires Laws(cs, 0, 0, lo, hi) && i < |cs|
    ensures r <= i && cs[r].parentIndex == 0 && Ancestor(cs, r, i)
    decreases i
  {
    assert CallLaw(cs, 0, 0, lo, hi, i);
    if cs[i].parentIndex == 0 {
      r := i;
    } else {
      r := RootAbove(cs, lo, hi, cs[i].parentIndex - 1);
    }
  }

  /** The child of `a` through which `a` is an ancestor of `i`. */
  lemma {:induction false} ChildToward(cs: seq<CallRec>, lo: nat, hi: nat, a: nat, i: nat) returns (c: nat)
    requires Laws(cs, 0, 0, lo, hi) && i < |cs| && Ancestor(cs, a, i) && a != i
    ensures c <= i && cs[c].parentIndex == a + 1 && Ancestor(cs, c, i)
    decreases i
  {
    assert CallLaw(cs, 0, 0, lo, hi, i);
    if cs[i].parentIndex == a + 1 {
      c := i;
    } else {
      c := ChildToward(cs, lo, hi, a, cs[i].parentIndex - 1);
    }
  }

  /** Within a transaction, one call's interval contains another's exactly when it is its ancestor;
      otherwise the intervals are disjoint. */
  lemma {:induction false} IntervalsNest(cs: seq<CallRec>, lo: nat, hi: nat, i: nat, j: nat)
    requires Laws(cs, 0, 0, lo, hi) && i < j < |cs|
    ensures WellNested(cs, i, j)
    decreases j, i
  {
    hide CallPlaced, Laws, CallLaw;
    LawAt(cs, lo, hi, i);
    LawAt(cs, lo, hi, j);
    BothLaws(cs, lo, hi);
    if Ancestor(cs, i, j) {
      AncestorContains(cs, lo, hi, i, j);
    } else if cs[j].parentIndex == 0 {
      var r := RootAbove(cs, lo, hi, i);
      AncestorContains(cs, lo, hi, r, i);
    } else {
      var q := cs[j].parentIndex - 1;
      assert Ancestor(cs, q, q);
      if i < q {
        IntervalsNest(cs, lo, hi, i, q);
      } else {
        IntervalsNest(cs, lo, hi, q, i);
        if Ancestor(cs, q, i) {
          var c := ChildToward(cs, lo, hi, q, i);
          AncestorContains(cs, lo, hi, c, i);
        }
      }
    }
  }

  lemma LawAt(cs: seq<CallRec>, lo: nat, hi: nat, i: nat)
    requires Laws(cs, 0, 0, lo, hi) && i < |cs|
    ensures cs[i].index == i + 1 && cs[i].beginOrdinal < cs[i].endOrdinal && cs[i].parentIndex <= i
    ensures cs[i].parentIndex > 0 ==>
      cs[cs[i].parentIndex - 1].beginOrdinal < cs[i].beginOrdinal
      && cs[i].endOrdinal < cs[cs[i].parentIndex - 1].endOrdinal
  {
    assert CallLaw(cs, 0, 0, lo, hi, i);
  }

  lemma BothLaws(cs: seq<CallRec>, lo: nat, hi: nat)
    requires Laws(cs, 0, 0, lo, hi)
    ensures SiblingLaw(cs) && BeginLaw(cs)
  {
  }

  // ---------------------------------------------------------------- reverts

  /** Parents come before their children, as in any list numbered in preorder. */
  predicate ParentsFirst(cs: seq<CallRec>) {
    forall i :: 0 <= i < |cs| ==> cs[i].parentIndex <= i
  }

  ghost predicate SomeFailed(cs: seq<CallRec>, i: nat)
    requires i < |cs|
  {
    exists a :: 0 <= a < |cs| && Ancestor(cs, a, i) && cs[a].statusFailed
  }

  lemma FailedStep(cs: seq<CallRec>, i: nat)
    requires i < |cs| && cs[i].parentIndex <= i
    ensures SomeFailed(cs, i)
       <==> cs[i].statusFailed || (cs[i].parentIndex > 0 && SomeFailed(cs, cs[i].parentIndex - 1))
  {
    if cs[i].statusFailed {
      assert Ancestor(cs, i, i);
    }
    if cs[i].parentIndex > 0 && SomeFailed(cs, cs[i].parentIndex - 1) {
      var a :| 0 <= a < |cs| && Ancestor(cs, a, cs[i].parentIndex - 1) && cs[a].statusFailed;
      assert Ancestor(cs, a, i);
    }
  }

  /** The parent lookup never leaves the list, and a call is marked reverted exactly when it or one of its
      ancestors failed. */
  lemma {:induction false} RevertsPropagate(cs: seq<CallRec>, done: seq<CallRec>)
    requires ParentsFirst(cs) && |done| <= |cs| && SameButMarks(cs[..|done|], done)
    requires forall i :: 0 <= i < |done| ==> (done[i].stateReverted <==> SomeFailed(cs, i))
    ensures var r := Propagate(cs, done);
      r.Ok? && SameButMarks(cs, r.value) && forall i :: 0 <= i < |cs| ==>
        (r.value[i].stateReverted <==> SomeFailed(cs, i))
    decreases |cs| - |done|
  {
    hide SomeFailed, Ancestor;
    if |done| == |cs| {
      assert cs[..|done|] == cs;
    } else {
      FailedStep(cs, |done|);
      assert cs[..|done| + 1] == cs[..|done|] + [cs[|done|]];
      RevertsPropagate(cs, done + [NextMarked(cs, done)]);
    }
  }

  // ---------------------------------------------------------------- completion of a forest's calls

  /** A call as completion leaves it: leftover changes appended, preimages attached, marked, and its logs'
      block indexes removed when reverted. */
  function Finalised(cfg: Config, c: CallRec, extra: Lists, keccak: map<Word, Bytes>, reverted: bool): CallRec {
    ClearCall(cfg)(c.(lists := Concat(c.lists, extra), keccak := keccak, stateReverted := reverted))
  }

  function ExtraAt(leftover: Lists, i: nat): Lists { if i == 0 then leftover else NO_CHANGES }

  /** `calls` are the calls `pre`, in this order, each finalised. */
  ghost predicate IsCompletion(cfg: Config, pre: seq<CallRec>, leftover: Lists, calls: seq<CallRec>) {
    |calls| == |pre| && forall i :: 0 <= i < |pre| ==>
      calls[i] == Finalised(cfg, pre[i], ExtraAt(leftover, i), calls[i].keccak, calls[i].stateReverted)
  }

  lemma SortedByIndex(pre: seq<CallRec>, post: seq<CallRec>)
    requires multiset(pre) == multiset(post) && forall i :: 0 <= i < |pre| ==> pre[i].index == i + 1
    ensures SortCalls(post) == pre
  {
    SortIsUnique(CallIndex, post, pre);
  }

  /** The arranged calls: in preorder, the leftover on the first root call. */
  ghost predicate Arranged(pre: seq<CallRec>, leftover: Lists, arranged: seq<CallRec>) {
    |arranged| == |pre| && forall i :: 0 <= i < |pre| ==>
      arranged[i] == pre[i].(lists := Concat(pre[i].lists, ExtraAt(leftover, i)), keccak := arranged[i].keccak)
  }

  lemma ArrangedInOrder(pre: seq<CallRec>, post: seq<CallRec>, leftover: Lists, recorded: seq<Recorded>)
    requires |post| > 0 && multiset(pre) == multiset(post) && forall i :: 0 <= i < |pre| ==> pre[i].index == i + 1
    ensures Arranged(pre, leftover, ArrangedCalls(post, leftover, recorded))
  {
    hide Attach, Concat;
    SortedByIndex(pre, post);
    SameBagSameLength(pre, post);
    var rooted := pre[0 := pre[0].(lists := Concat(pre[0].lists, leftover))];
    AttachKeeps(rooted, recorded);
    forall i | 0 <= i < |pre|
      ensures rooted[i] == pre[i].(lists := Concat(pre[i].lists, ExtraAt(leftover, i)))
    {
      ConcatEmpty(pre[i].lists);
    }
  }

  /** Calls arrive at completion in closing order; sorting restores preorder, propagation stays in bounds. */
  lemma CompletionOrders(cfg: Config, pre: seq<CallRec>, post: seq<CallRec>, leftover: Lists, recorded: seq<Recorded>)
    requires |post| > 0 && multiset(pre) == multiset(post)
    requires ParentsFirst(pre) && forall i :: 0 <= i < |pre| ==> pre[i].index == i + 1
    ensures var r := SettledCalls(cfg, ArrangedCalls(post, leftover, recorded));
      r.Ok? && IsCompletion(cfg, pre, leftover, r.value)
      && forall i :: 0 <= i < |pre| ==> (r.value[i].stateReverted <==> SomeFailed(pre, i))
  {
    hide ArrangedCalls, Propagate, SomeFailed, Concat;
    ArrangedInOrder(pre, post, leftover, recorded);
    var arranged := ArrangedCalls(post, leftover, recorded);
    forall i | 0 <= i < |pre| ensures SomeFailed(arranged, i) <==> SomeFailed(pre, i) {
      SameFailures(arranged, pre, i);
    }
    RevertsPropagate(arranged, []);
    var marked := Propagate(arranged, []).value;
    forall i | 0 <= i < |pre| ensures var c := ClearCall(cfg)(marked[i]);
      c == Finalised(cfg, pre[i], ExtraAt(leftover, i), c.keccak, c.stateReverted)
      && c.stateReverted == marked[i].stateReverted
    {
      assert marked[i] == arranged[i].(stateReverted := marked[i].stateReverted);
    }
  }

  lemma {:induction false} SameAncestors(a: seq<CallRec>, b: seq<CallRec>, x: nat, i: nat)
    requires |a| == |b| && i < |a| && forall k :: 0 <= k < |a| ==> a[k].parentIndex == b[k].parentIndex
    ensures Ancestor(a, x, i) == Ancestor(b, x, i)
    decreases i
  {
    if 0 < a[i].parentIndex <= i {
      SameAncestors(a, b, x, a[i].parentIndex - 1);
    }
  }

  lemma SameFailures(a: seq<CallRec>, b: seq<CallRec>, i: nat)
    requires |a| == |b| && i < |a|
    requires forall k :: 0 <= k < |a| ==> a[k].parentIndex == b[k].parentIndex && a[k].statusFailed == b[k].statusFailed
    ensures SomeFailed(a, i) <==> SomeFailed(b, i)
  {
    forall x: nat { SameAncestors(a, b, x, i); }
  }
}
