/**
 * `findGaps`: the stretches of a sheet between blocks of consecutive rows that
 * hold a search term (for instance the "Round 1" label repeated above every
 * page of a draw). Both the legacy parser and the participant-row selection use
 * the same routine; they differ only in how they find the cells holding the term.
 */
module Gaps {
  import opened Common

  /** The rows at indices a..b follow each other one by one. */
  predicate Consecutive(inst: seq<int>, a: nat, b: nat)
    requires a <= b < |inst| || a == b
    decreases b - a
  {
    a == b || (inst[a + 1] == inst[a] + 1 && Consecutive(inst, a + 1, b))
  }

  /**
   * `nextGap(index)`: the index where the run of consecutive row numbers that
   * contains `index` ends. At or past the last index it stays where it is.
   */
  function NextGap(inst: seq<int>, i: nat): (r: nat)
    requires i <= |inst|
    ensures i <= r <= |inst| && (i < |inst| ==> r < |inst|)
    ensures r + 1 >= |inst| || inst[r + 1] != inst[r] + 1
    ensures Consecutive(inst, i, r)
    decreases |inst| - i
  {
    if i + 1 < |inst| && inst[i + 1] == inst[i] + 1 then NextGap(inst, i + 1) else i
  }

  /** An index where a run of consecutive rows ends. */
  predicate RunEnd(inst: seq<int>, e: nat) {
    e < |inst| && (e + 1 == |inst| || inst[e + 1] != inst[e] + 1)
  }

  lemma NextGapAtRunEnd(inst: seq<int>, e: nat)
    requires RunEnd(inst, e)
    ensures NextGap(inst, e) == e
  {
  }

  /**
   * The row pairs the loop pushes, as a reference definition over the runs:
   * the last row of every run `prev` paired with the last row of the run that
   * follows it, except when `prev` is the sentinel index 0.
   */
  function RunPairs(inst: seq<int>, prev: nat, from: nat): seq<(int, int)>
    requires from <= |inst| && (prev == 0 || prev < |inst|)
    decreases |inst| - from
  {
    if from == |inst| then []
    else
      var e := NextGap(inst, from);
      (if prev != 0 then [(inst[prev], inst[e])] else []) + RunPairs(inst, e, e + 1)
  }

  /** The same pairs by index, to say where each pushed pair comes from. */
  function IndexPairs(inst: seq<int>, prev: nat, from: nat): (r: seq<(nat, nat)>)
    requires from <= |inst| && (prev == 0 || prev < |inst|)
    ensures |r| == |RunPairs(inst, prev, from)|
    ensures forall i :: 0 <= i < |r| ==>
      r[i].0 < |inst| && r[i].1 < |inst| && RunPairs(inst, prev, from)[i] == (inst[r[i].0], inst[r[i].1])
    decreases |inst| - from
  {
    if from == |inst| then []
    else
      var e := NextGap(inst, from);
      (if prev != 0 then [(prev, e)] else []) + IndexPairs(inst, e, e + 1)
  }

  /** Pairs of run ends: both are run ends, the second ends the run right after the first. */
  predicate ConsecutiveRunEnds(inst: seq<int>, a: nat, b: nat) {
    a < b && RunEnd(inst, a) && RunEnd(inst, b) && Consecutive(inst, a + 1, b)
  }

  /** Every pair joins the end of one run, past the sentinel block, to the end of the next run. */
  predicate PairsShaped(inst: seq<int>, ps: seq<(nat, nat)>) {
    forall i :: 0 <= i < |ps| ==> 0 < ps[i].0 && ConsecutiveRunEnds(inst, ps[i].0, ps[i].1)
  }

  lemma ConsShaped(inst: seq<int>, head: seq<(nat, nat)>, rest: seq<(nat, nat)>)
    requires PairsShaped(inst, head) && PairsShaped(inst, rest)
    ensures PairsShaped(inst, head + rest)
  {
    assert forall i :: |head| <= i < |head + rest| ==> (head + rest)[i] == rest[i - |head|];
  }

  /** The pair pushed at the end of the run that starts right after `prev`. */
  function Head(inst: seq<int>, prev: nat, from: nat): seq<(nat, nat)>
    requires from < |inst|
  {
    if prev != 0 then [(prev, NextGap(inst, from))] else []
  }

  lemma HeadShaped(inst: seq<int>, prev: nat, from: nat)
    requires from < |inst|
    requires prev != 0 ==> from == prev + 1 && RunEnd(inst, prev)
    ensures PairsShaped(inst, Head(inst, prev, from))
  {
    if prev != 0 {
      var e := NextGap(inst, from);
      assert ConsecutiveRunEnds(inst, prev, e);
    }
  }

  lemma IndexPairsUnfold(inst: seq<int>, prev: nat, from: nat)
    requires from < |inst| && (prev == 0 || prev < |inst|)
    ensures IndexPairs(inst, prev, from) == Head(inst, prev, from) + IndexPairs(inst, NextGap(inst, from), NextGap(inst, from) + 1)
  {
  }

  lemma {:induction false} IndexPairsShape(inst: seq<int>, prev: nat, from: nat)
    requires from <= |inst|
    requires prev != 0 ==> from == prev + 1 && RunEnd(inst, prev)
    ensures PairsShaped(inst, IndexPairs(inst, prev, from))
    decreases |inst| - from
  {
    if from < |inst| {
      var e := NextGap(inst, from);
      assert RunEnd(inst, e);
      IndexPairsShape(inst, e, e + 1);
      IndexPairsShapeStep(inst, prev, from);
    }
  }

  /** The pair pushed now, followed by well-shaped pairs, is well shaped. */
  lemma IndexPairsShapeStep(inst: seq<int>, prev: nat, from: nat)
    requires from < |inst|
    requires prev != 0 ==> from == prev + 1 && RunEnd(inst, prev)
    requires PairsShaped(inst, IndexPairs(inst, NextGap(inst, from), NextGap(inst, from) + 1))
    ensures PairsShaped(inst, IndexPairs(inst, prev, from))
  {
    var e := NextGap(inst, from);
    var head, rest := Head(inst, prev, from), IndexPairs(inst, e, e + 1);
    assert PairsShaped(inst, head + rest) by {
      HeadShaped(inst, prev, from);
      ConsShaped(inst, head, rest);
    }
    assert IndexPairs(inst, prev, from) == head + rest by {
      IndexPairsUnfold(inst, prev, from);
    }
  }

  function IsWide(g: (int, int)): bool { g.1 - g.0 > 3 }

  /** The gaps of a list of instance rows (with the leading 0 sentinel already in place). */
  function GapsOf(inst: seq<int>): seq<(int, int)> {
    Filter(RunPairs(inst, 0, 0), IsWide)
  }

  /** `nextGap`, as the loop in the script. */
  method NextGapIndex(inst: seq<int>, index: nat) returns (r: nat)
    requires index <= |inst|
    ensures r == NextGap(inst, index)
  {
    r := index;
    while r + 1 < |inst| && inst[r + 1] == inst[r] + 1
      invariant index <= r <= |inst|
      invariant NextGap(inst, r) == NextGap(inst, index)
      decreases |inst| - r
    {
      r := r + 1;
    }
  }

  /** What the loop still pushes from a state (gap_start, gap_end). */
  function PairsLeft(inst: seq<int>, gapStart: nat, gapEnd: nat): seq<(int, int)>
    requires gapEnd <= |inst| && (gapStart == 0 || gapStart < |inst|)
  {
    if gapEnd == |inst| then []
    else (if gapStart != 0 then [(inst[gapStart], inst[gapEnd])] else []) + RunPairs(inst, gapEnd, gapEnd + 1)
  }

  lemma PairsLeftStart(inst: seq<int>)
    ensures PairsLeft(inst, 0, NextGap(inst, 0)) == RunPairs(inst, 0, 0)
  {
  }

  /** The pairs pushed so far after one more turn from (gap_start, gap_end). */
  function Pushed(inst: seq<int>, before: seq<(int, int)>, gapStart: nat, gapEnd: nat): seq<(int, int)>
    requires gapEnd < |inst| && (gapStart == 0 || gapStart < |inst|)
  {
    if gapStart != 0 then before + [(inst[gapStart], inst[gapEnd])] else before
  }

  /** One turn of the loop: what is left splits into the pair pushed now and what is left after it. */
  lemma LoopStep(inst: seq<int>, before: seq<(int, int)>, gapStart: nat, gapEnd: nat)
    requires gapEnd < |inst| && (gapStart == 0 || gapStart < |inst|)
    requires before + PairsLeft(inst, gapStart, gapEnd) == RunPairs(inst, 0, 0)
    ensures Pushed(inst, before, gapStart, gapEnd) + PairsLeft(inst, gapEnd, NextGap(inst, gapEnd + 1)) == RunPairs(inst, 0, 0)
  {
    var rest := PairsLeft(inst, gapEnd, NextGap(inst, gapEnd + 1));
    assert RunPairs(inst, gapEnd, gapEnd + 1) == rest;
    if gapStart != 0 {
      var push := [(inst[gapStart], inst[gapEnd])];
      assert before + (push + rest) == (before + push) + rest;
    } else {
      assert [] + rest == rest;
    }
  }

  /** One turn of the loop: push the pair of the current block, then move to the next block. */
  method PairStep(instances: seq<int>, raw: seq<(int, int)>, gapStart: nat, gapEnd: nat)
    returns (raw': seq<(int, int)>, gapStart': nat, gapEnd': nat)
    requires gapEnd < |instances| && (gapStart == 0 || gapStart < |instances|) && RunEnd(instances, gapEnd)
    requires raw + PairsLeft(instances, gapStart, gapEnd) == RunPairs(instances, 0, 0)
    ensures gapEnd < gapEnd' <= |instances| && gapStart' < |instances|
    ensures gapEnd' < |instances| ==> RunEnd(instances, gapEnd')
    ensures raw' + PairsLeft(instances, gapStart', gapEnd') == RunPairs(instances, 0, 0)
  {
    LoopStep(instances, raw, gapStart, gapEnd);
    raw' := raw;
    if gapStart != 0 {
      raw' := raw + [(instances[gapStart], instances[gapEnd])];
    }
    assert raw' == Pushed(instances, raw, gapStart, gapEnd);
    NextGapAtRunEnd(instances, gapEnd);
    gapStart' := NextGapIndex(instances, gapEnd);
    gapEnd' := NextGapIndex(instances, gapStart' + 1);
  }

  /** The `while (gap_end < instances.length)` loop: the pairs it pushes, before the width filter. */
  method PairBlocks(instances: seq<int>) returns (raw: seq<(int, int)>)
    ensures raw == RunPairs(instances, 0, 0)
  {
    raw := [];
    var gapStart: nat := 0;
    var gapEnd := NextGapIndex(instances, 0);
    PairsLeftStart(instances);
    while gapEnd < |instances|
      invariant gapEnd <= |instances| && (gapStart == 0 || gapStart < |instances|)
      invariant gapEnd < |instances| ==> RunEnd(instances, gapEnd)
      invariant raw + PairsLeft(instances, gapStart, gapEnd) == RunPairs(instances, 0, 0)
      decreases |instances| - gapEnd
    {
      raw, gapStart, gapEnd := PairStep(instances, raw, gapStart, gapEnd);
    }
  }

  /**
   * `findGaps`, with `rows` the row of every cell that holds the term, in key
   * order: the loop pairs each block of consecutive term rows with the next one
   * and only wide pairs survive.
   */
  method FindGaps(rows: seq<int>) returns (gaps: seq<(int, int)>)
    ensures gaps == GapsOf([0] + Unique(rows))
  {
    var instances := [0] + Unique(rows);
    var raw := PairBlocks(instances);
    gaps := Filter(raw, IsWide);
  }

  /** Every gap found spans more than three rows. */
  lemma GapsAreWide(inst: seq<int>)
    ensures forall i :: 0 <= i < |GapsOf(inst)| ==> GapsOf(inst)[i].1 - GapsOf(inst)[i].0 > 3
  {
  }

  /**
   * Every pair the loop pushes runs from the last row of one block of
   * consecutive term rows to the last row of the next block, and never starts
   * at the block of the sentinel row 0.
   */
  lemma GapsAreBlockEnds(inst: seq<int>)
    ensures |IndexPairs(inst, 0, 0)| == |RunPairs(inst, 0, 0)|
    ensures forall i :: 0 <= i < |IndexPairs(inst, 0, 0)| ==>
      0 < IndexPairs(inst, 0, 0)[i].0 && ConsecutiveRunEnds(inst, IndexPairs(inst, 0, 0)[i].0, IndexPairs(inst, 0, 0)[i].1)
      && RunPairs(inst, 0, 0)[i] == (inst[IndexPairs(inst, 0, 0)[i].0], inst[IndexPairs(inst, 0, 0)[i].1])
  {
    IndexPairsShape(inst, 0, 0);
  }
}
