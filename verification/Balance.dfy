/** Which event sequences are flattened forests: exactly the balanced ones, where the depth argument of
    every call entry is the number of open calls, no call is open at the end, and only leaf events come
    between the entry and the exit of a SELFDESTRUCT. */
module Balance {
  import opened Model
  import opened Machine
  import opened Forest

  predicate Balanced(es: seq<TxEvent>, depth: nat, suicided: bool)
    decreases |es|
  {
    if |es| == 0 then depth == 0 && !suicided
    else match es[0]
      case Enter(d, frame) =>
        !suicided && if frame.typ == SELFDESTRUCT then Balanced(es[1..], depth, true)
                     else CallAllowed(frame) && d == depth && Balanced(es[1..], depth + 1, false)
      case Leave(_) =>
        if suicided then Balanced(es[1..], depth, false) else depth > 0 && Balanced(es[1..], depth - 1, false)
      case e => LeafAllowed(e, depth > 0) && Balanced(es[1..], depth, suicided)
  }

  lemma {:induction false} LeavesScan(leaves: seq<TxEvent>, tail: seq<TxEvent>, depth: nat, suicided: bool)
    requires forall i :: 0 <= i < |leaves| ==> LeafAllowed(leaves[i], depth > 0)
    ensures Balanced(leaves + tail, depth, suicided) == Balanced(tail, depth, suicided)
    decreases |leaves|
  {
    if |leaves| == 0 {
      assert leaves + tail == tail;
    } else {
      assert (leaves + tail)[1..] == leaves[1..] + tail;
      LeavesScan(leaves[1..], tail, depth, suicided);
    }
  }

  lemma {:induction false} FlattenScan(f: Items, tail: seq<TxEvent>, depth: nat)
    requires WellFormed(f, depth > 0)
    ensures Balanced(Flatten(f, depth) + tail, depth, false) == Balanced(tail, depth, false)
    decreases f
  {
    hide CallAllowed;
    var all := Flatten(f, depth) + tail;
    match f
    case Done =>
      assert all == tail;
    case Leaf(e, rest) =>
      assert all[1..] == Flatten(rest, depth) + tail;
      FlattenScan(rest, tail, depth);
    case Destruct(_, _, leaves, exit, rest) =>
      var after := [Leave(exit)] + (Flatten(rest, depth) + tail);
      assert all[1..] == leaves + after;
      LeavesScan(leaves, after, depth, true);
      assert after[1..] == Flatten(rest, depth) + tail;
      FlattenScan(rest, tail, depth);
    case Sub(_, inner, exit, rest) =>
      CallScan(f, tail, depth);
      FlattenScan(inner, [Leave(exit)] + (Flatten(rest, depth) + tail), depth + 1);
      FlattenScan(rest, tail, depth);
  }

  lemma CallScan(f: Items, tail: seq<TxEvent>, depth: nat)
    requires f.Sub? && CallAllowed(f.frame)
    ensures var after := [Leave(f.exit)] + (Flatten(f.rest, depth) + tail);
      && Balanced(Flatten(f, depth) + tail, depth, false)
         == Balanced(Flatten(f.inner, depth + 1) + after, depth + 1, false)
      && Balanced(after, depth + 1, false) == Balanced(Flatten(f.rest, depth) + tail, depth, false)
  {
    var all := Flatten(f, depth) + tail;
    var after := [Leave(f.exit)] + (Flatten(f.rest, depth) + tail);
    assert all[0] == Enter(depth, f.frame);
    assert all[1..] == Flatten(f.inner, depth + 1) + after;
    assert after[1..] == Flatten(f.rest, depth) + tail;
  }

  /** What is left to happen with `|xs|` calls open: the rest of the innermost level, its exit, and so on outwards. */
  function Unwind(fs: seq<Items>, xs: seq<Exit>): seq<TxEvent>
    requires |fs| == |xs| + 1
    decreases |xs|
  {
    if |xs| == 0 then Flatten(fs[0], 0)
    else Flatten(fs[0], |xs|) + ([Leave(xs[0])] + Unwind(fs[1..], xs[1..]))
  }

  ghost predicate Levels(fs: seq<Items>) {
    forall i :: 0 <= i < |fs| ==> WellFormed(fs[i], i < |fs| - 1)
  }

  lemma {:induction false} SkipPair(es: seq<TxEvent>, depth: nat)
      returns (leaves: seq<TxEvent>, exit: Exit, rest: seq<TxEvent>)
    requires Balanced(es, depth, true)
    ensures es == leaves + ([Leave(exit)] + rest) && Balanced(rest, depth, false)
    ensures forall i :: 0 <= i < |leaves| ==> LeafAllowed(leaves[i], depth > 0)
    decreases |es|
  {
    if es[0].Leave? {
      leaves, exit, rest := [], es[0].exit, es[1..];
    } else {
      leaves, exit, rest := SkipPair(es[1..], depth);
      assert es == [es[0]] + es[1..];
      leaves := [es[0]] + leaves;
    }
  }

  /** Putting events in front of the innermost level. */
  lemma UnwindHead(fs: seq<Items>, xs: seq<Exit>, head: Items, front: seq<TxEvent>)
    requires |fs| == |xs| + 1 && Levels(fs) && WellFormed(head, |xs| > 0)
    requires Flatten(head, |xs|) == front + Flatten(fs[0], |xs|)
    ensures Levels(fs[0 := head]) && Unwind(fs[0 := head], xs) == front + Unwind(fs, xs)
  {
    hide Flatten, WellFormed;
    assert fs[0 := head][1..] == fs[1..];
    if |xs| > 0 {
      var tail := [Leave(xs[0])] + Unwind(fs[1..], xs[1..]);
      assert (front + Flatten(fs[0], |xs|)) + tail == front + (Flatten(fs[0], |xs|) + tail);
    }
  }

  /** Closing the innermost level into a call of the level around it. */
  lemma UnwindCall(gs: seq<Items>, ys: seq<Exit>, frame: Frame)
    requires |gs| == |ys| + 1 >= 2 && Levels(gs) && CallAllowed(frame)
    ensures var fs := [Sub(frame, gs[0], ys[0], gs[1])] + gs[2..];
      Levels(fs) && Unwind(fs, ys[1..]) == [Enter(|ys| - 1, frame)] + Unwind(gs, ys)
  {
    hide Flatten, WellFormed, Unwind, Levels;
    var n := |ys| - 1;
    var head, outer := Sub(frame, gs[0], ys[0], gs[1]), gs[1..];
    OuterLevels(gs);
    InnermostLevel(gs);
    InnermostLevel(outer);
    var front := [Enter(n, frame)] + (Flatten(gs[0], n + 1) + [Leave(ys[0])]);
    CallFlattens(frame, gs[0], ys[0], gs[1], n);
    UnwindHead(outer, ys[1..], head, front);
    assert outer[0 := head] == [head] + gs[2..];
    UnwindOne(gs, ys);
    Regroup(Enter(n, frame), Flatten(gs[0], n + 1), Leave(ys[0]), Unwind(outer, ys[1..]));
  }

  lemma Regroup(a: TxEvent, b: seq<TxEvent>, c: TxEvent, d: seq<TxEvent>)
    ensures ([a] + (b + [c])) + d == [a] + (b + ([c] + d))
  {
  }

  lemma CallFlattens(frame: Frame, inner: Items, exit: Exit, rest: Items, depth: nat)
    requires CallAllowed(frame) && WellFormed(inner, true) && WellFormed(rest, depth > 0)
    ensures var head := Sub(frame, inner, exit, rest);
      && WellFormed(head, depth > 0)
      && Flatten(head, depth)
         == [Enter(depth, frame)] + (Flatten(inner, depth + 1) + [Leave(exit)]) + Flatten(rest, depth)
  {
    assert Flatten(inner, depth + 1) + ([Leave(exit)] + Flatten(rest, depth))
        == (Flatten(inner, depth + 1) + [Leave(exit)]) + Flatten(rest, depth);
  }

  lemma OuterLevels(gs: seq<Items>)
    requires |gs| >= 2 && Levels(gs)
    ensures Levels(gs[1..])
  {
    hide WellFormed;
    forall i | 0 <= i < |gs| - 1 ensures WellFormed(gs[1..][i], i < |gs| - 2) {
      assert WellFormed(gs[i + 1], i + 1 < |gs| - 1);
    }
  }

  lemma UnwindOne(gs: seq<Items>, ys: seq<Exit>)
    requires |gs| == |ys| + 1 >= 2
    ensures Unwind(gs, ys) == Flatten(gs[0], |ys|) + ([Leave(ys[0])] + Unwind(gs[1..], ys[1..]))
  {
  }

  lemma {:induction false} Parse(es: seq<TxEvent>, depth: nat) returns (fs: seq<Items>, xs: seq<Exit>)
    requires Balanced(es, depth, false)
    ensures |fs| == depth + 1 && |xs| == depth && Levels(fs) && Unwind(fs, xs) == es
    decreases |es|
  {
    hide Levels, Unwind;
    if |es| == 0 {
      fs, xs := [Done], [];
      assert Levels(fs) && Unwind(fs, xs) == [] by { NothingLeft(); }
    } else {
      assert es == [es[0]] + es[1..];
      if es[0].Enter? && es[0].frame.typ == SELFDESTRUCT {
        fs, xs := ParsePair(es, depth);
      } else if es[0].Enter? {
        var gs, ys := Parse(es[1..], depth + 1);
        UnwindCall(gs, ys, es[0].frame);
        fs, xs := [Sub(es[0].frame, gs[0], ys[0], gs[1])] + gs[2..], ys[1..];
      } else if es[0].Leave? {
        var gs, ys := Parse(es[1..], depth - 1);
        UnwindLeave(gs, ys, es[0].exit);
        fs, xs := [Done] + gs, [es[0].exit] + ys;
      } else {
        var gs;
        gs, xs := Parse(es[1..], depth);
        assert WellFormed(gs[0], depth > 0) by { InnermostLevel(gs); }
        UnwindHead(gs, xs, Leaf(es[0], gs[0]), [es[0]]);
        fs := gs[0 := Leaf(es[0], gs[0])];
      }
    }
  }

  lemma NothingLeft()
    ensures Levels([Done]) && Unwind([Done], []) == []
  {
  }

  lemma InnermostLevel(gs: seq<Items>)
    requires Levels(gs) && |gs| > 0
    ensures WellFormed(gs[0], |gs| > 1)
  {
  }

  lemma UnwindLeave(gs: seq<Items>, ys: seq<Exit>, x: Exit)
    requires |gs| == |ys| + 1 && Levels(gs)
    ensures Levels([Done] + gs) && Unwind([Done] + gs, [x] + ys) == [Leave(x)] + Unwind(gs, ys)
  {
    assert ([Done] + gs)[1..] == gs && ([x] + ys)[1..] == ys;
    assert Flatten(Done, |ys| + 1) == [];
  }

  lemma {:induction false} ParsePair(es: seq<TxEvent>, depth: nat) returns (fs: seq<Items>, xs: seq<Exit>)
    requires Balanced(es, depth, false) && |es| > 0 && es[0].Enter? && es[0].frame.typ == SELFDESTRUCT
    ensures |fs| == depth + 1 && |xs| == depth && Levels(fs) && Unwind(fs, xs) == es
    decreases |es|, 0
  {
    hide Levels, Unwind;
    var leaves, exit, rest := SkipPair(es[1..], depth);
    var gs;
    gs, xs := Parse(rest, depth);
    var head := Destruct(es[0].depth, es[0].frame, leaves, exit, gs[0]);
    var front := [es[0]] + (leaves + [Leave(exit)]);
    InnermostLevel(gs);
    assert Flatten(head, depth) == front + Flatten(gs[0], depth);
    UnwindHead(gs, xs, head, front);
    fs := gs[0 := head];
    assert es == [es[0]] + (leaves + ([Leave(exit)] + rest));
    assert front + rest == es;
  }

  /** A transaction body is balanced exactly when it is the flattening of a well-formed forest. */
  lemma BalancedIsForest(es: seq<TxEvent>)
    ensures Balanced(es, 0, false) <==> exists f :: WellFormed(f, false) && Flatten(f, 0) == es
  {
    if Balanced(es, 0, false) {
      var fs, xs := Parse(es, 0);
      assert WellFormed(fs[0], false) && Flatten(fs[0], 0) == es;
    }
    if f :| WellFormed(f, false) && Flatten(f, 0) == es {
      FlattenScan(f, [], 0);
      assert Flatten(f, 0) + [] == es;
    }
  }
}
