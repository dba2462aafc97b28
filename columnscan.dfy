/**
 * The column scan: one round column of a knockout sheet is read top to bottom.
 * Cells that name a participant are collected as the pending winners of a match;
 * the group is closed by a jump in the row number or by a score cell, and winners
 * still pending at the end of the column become a bye.
 */
module ColumnScan {
  import opened Common

  /** One cell of a round column: its row number and its (normalised) text. */
  datatype Cell = Cell(row: int, text: string)

  datatype ColumnMatch =
    | Pending(winners: seq<int>)                  // `{ winners }`, closed by a row jump
    | Scored(winners: seq<int>, result: string)   // `{ winners, result }`, closed by a score cell
    | Bye(winners: seq<int>)                      // `{ bye: winners }`, left over at the end

  /** `{ drawPosition, indices }`: the matches closed while `drawPosition` was the latest position seen. */
  datatype Occurrence = Occurrence(drawPosition: int, indices: seq<nat>)

  datatype ColumnResult = ColumnResult(roundOccurrences: seq<Occurrence>, matches: seq<ColumnMatch>)

  /**
   * The helpers the scan calls: `lookup(text, idx)` is the draw position of the
   * idx-th participant called `text` (None for `undefined`), `normalize` is `normalizeScore`.
   */
  datatype Env = Env(lookup: (string, nat) -> Option<int>, normalize: string -> string)

  datatype ScanState = ScanState(
    names: seq<string>,
    matches: seq<ColumnMatch>,
    winners: seq<int>,
    lastDrawPosition: Option<int>,
    lastRow: int,
    occurrences: seq<Occurrence>)

  /** JavaScript truthiness of a draw position: `undefined` and 0 are falsy. */
  predicate Truthy(dp: Option<int>) {
    dp.Some? && dp.value != 0
  }

  /** `round_occurrences[dp].push(index)`, the array kept in ascending key order. */
  function AddOccurrence(occ: seq<Occurrence>, dp: int, index: nat): (r: seq<Occurrence>)
    ensures |r| == |occ| || |r| == |occ| + 1
  {
    if occ == [] then [Occurrence(dp, [index])]
    else if occ[0].drawPosition == dp then [occ[0].(indices := occ[0].indices + [index])] + occ[1..]
    else if dp < occ[0].drawPosition then [Occurrence(dp, [index])] + occ
    else [occ[0]] + AddOccurrence(occ[1..], dp, index)
  }

  /** Record the index of the match about to be closed under the latest draw position, if it is truthy. */
  function Record(st: ScanState): seq<Occurrence> {
    if Truthy(st.lastDrawPosition) then AddOccurrence(st.occurrences, st.lastDrawPosition.value, |st.matches|)
    else st.occurrences
  }

  /** A row that does not follow the previous one closes the pending winners, if there are any. */
  function CloseOnJump(st: ScanState, row: int): ScanState {
    if row != st.lastRow + 1 && st.winners != [] then
      st.(occurrences := Record(st), matches := st.matches + [Pending(st.winners)], winners := [])
    else st
  }

  /** One iteration of the `forEach` over the column's references. */
  function Step(st: ScanState, cell: Cell, env: Env): ScanState {
    var s1 := CloseOnJump(st, cell.row).(lastRow := cell.row);
    var idx := Count(s1.names, cell.text);
    var s2 := s1.(names := s1.names + [cell.text]);
    match env.lookup(cell.text, idx)
    case Some(dp) =>
      s2.(lastDrawPosition := Some(dp), winners := if dp in s2.winners then s2.winners else s2.winners + [dp])
    case None =>
      s2.(occurrences := Record(s2), matches := s2.matches + [Scored(s2.winners, env.normalize(cell.text))], winners := [])
  }

  /** The state after the first |cells| iterations. */
  function Run(init: ScanState, cells: seq<Cell>, env: Env): ScanState {
    if cells == [] then init else Step(Run(init, cells[..|cells| - 1], env), cells[|cells| - 1], env)
  }

  lemma RunSnoc(init: ScanState, cells: seq<Cell>, i: nat, env: Env)
    requires i < |cells|
    ensures Run(init, cells[..i + 1], env) == Step(Run(init, cells[..i], env), cells[i], env)
  {
    assert cells[..i + 1][..i] == cells[..i];
  }

  /** `last_row_number` starts one `offset` above the first row. */
  function InitialState(cells: seq<Cell>, offset: int): ScanState {
    ScanState([], [], [], None, if cells == [] then 0 else cells[0].row - offset, [])
  }

  /** `round_occurrences.map(...).filter(f => f)`: only array-index keys survive. */
  function IndexEntries(occ: seq<Occurrence>): (r: seq<Occurrence>)
    ensures forall i :: 0 <= i < |r| ==> r[i] in occ && r[i].drawPosition >= 0
  {
    if occ == [] then []
    else (if occ[0].drawPosition >= 0 then [occ[0]] else []) + IndexEntries(occ[1..])
  }

  function Finish(st: ScanState): ColumnResult {
    ColumnResult(IndexEntries(st.occurrences), if st.winners != [] then st.matches + [Bye(st.winners)] else st.matches)
  }

  /** What `columnMatches` returns for a column, given the row offset it starts from. */
  function Scan(cells: seq<Cell>, offset: int, env: Env): ColumnResult {
    Finish(Run(InitialState(cells, offset), cells, env))
  }

  /** The body of the `forEach` in `columnMatches`, on the variables it updates. */
  method ScanCell(st: ScanState, cell: Cell, env: Env) returns (next: ScanState)
    ensures next == Step(st, cell, env)
  {
    var names, matches, winners, lastDrawPosition, occurrences := st.names, st.matches, st.winners, st.lastDrawPosition, st.occurrences;
    if cell.row != st.lastRow + 1 && |winners| > 0 {
      if lastDrawPosition.Some? && lastDrawPosition.value != 0 {
        occurrences := AddOccurrence(occurrences, lastDrawPosition.value, |matches|);
      }
      matches := matches + [Pending(winners)];
      winners := [];
    }
    var lastRow := cell.row;
    var idx := Count(names, cell.text);
    names := names + [cell.text];
    var drawPosition := env.lookup(cell.text, idx);
    if drawPosition.Some? {
      lastDrawPosition := drawPosition;
      if drawPosition.value !in winners {
        winners := winners + [drawPosition.value];
      }
    } else {
      if lastDrawPosition.Some? && lastDrawPosition.value != 0 {
        occurrences := AddOccurrence(occurrences, lastDrawPosition.value, |matches|);
      }
      matches := matches + [Scored(winners, env.normalize(cell.text))];
      winners := [];
    }
    next := ScanState(names, matches, winners, lastDrawPosition, lastRow, occurrences);
  }

  /** `columnMatches` (and, with offset 1, the legacy `getColumnMatchUps`). */
  method ColumnMatches(cells: seq<Cell>, offset: int, env: Env) returns (r: ColumnResult)
    ensures r == Scan(cells, offset, env)
  {
    var init := InitialState(cells, offset);
    var st := init;
    for i := 0 to |cells|
      invariant st == Run(init, cells[..i], env)
    {
      st := ScanCell(st, cells[i], env);
      RunSnoc(init, cells, i, env);
    }
    assert cells[..|cells|] == cells;
    var matches := st.matches;
    if |st.winners| > 0 {
      matches := matches + [Bye(st.winners)];
    }
    r := ColumnResult(IndexEntries(st.occurrences), matches);
  }

  // ---------------------------------------------------------------- invariant of the fold

  /** `round_occurrences[dp]`, [] where the array has no entry. */
  function IndicesOf(occ: seq<Occurrence>, dp: int): seq<nat> {
    if occ == [] then [] else if occ[0].drawPosition == dp then occ[0].indices else IndicesOf(occ[1..], dp)
  }

  function Keys(occ: seq<Occurrence>): (r: seq<int>)
    ensures |r| == |occ| && forall i :: 0 <= i < |occ| ==> r[i] == occ[i].drawPosition
  {
    if occ == [] then [] else [occ[0].drawPosition] + Keys(occ[1..])
  }

  predicate StrictlyIncreasing(s: seq<nat>) {
    forall i, j :: 0 <= i < j < |s| ==> s[i] < s[j]
  }

  predicate KeysIncreasing(occ: seq<Occurrence>) {
    forall i, j :: 0 <= i < j < |occ| ==> occ[i].drawPosition < occ[j].drawPosition
  }

  /**
   * The occurrence table: ascending keys with non-empty entries; each entry lists
   * ascending indices of matches already closed, and no index is listed under two keys.
   */
  ghost predicate OccurrencesValid(occ: seq<Occurrence>, n: nat) {
    && KeysIncreasing(occ)
    && (forall i :: 0 <= i < |occ| ==> occ[i].indices != [])
    && IndicesAscend(occ)
    && IndicesBelow(occ, n)
    && IndicesDisjoint(occ)
  }

  ghost predicate IndicesAscend(occ: seq<Occurrence>) {
    forall dp :: StrictlyIncreasing(IndicesOf(occ, dp))
  }

  ghost predicate IndicesBelow(occ: seq<Occurrence>, n: nat) {
    forall dp, k :: k in IndicesOf(occ, dp) ==> k < n
  }

  ghost predicate IndicesDisjoint(occ: seq<Occurrence>) {
    forall d1, d2, k :: d1 != d2 && k in IndicesOf(occ, d1) ==> k !in IndicesOf(occ, d2)
  }

  /** What holds between iterations. */
  ghost predicate Inv(st: ScanState) {
    && NoDup(st.winners)
    && (forall k :: 0 <= k < |st.matches| ==> NoDup(st.matches[k].winners) && !st.matches[k].Bye?)
    && (forall k :: 0 <= k < |st.matches| && st.matches[k].Pending? ==> st.matches[k].winners != [])
    && OccurrencesValid(st.occurrences, |st.matches|)
  }

  /** Every key of `r` is `dp` or a key of `occ`. */
  predicate KeysFrom(r: seq<Occurrence>, occ: seq<Occurrence>, dp: int) {
    forall i :: 0 <= i < |r| ==> r[i].drawPosition == dp || r[i].drawPosition in Keys(occ)
  }

  /** Every key after the insertion is the new one or was there before. */
  lemma {:induction false} AddOccurrenceKeys(occ: seq<Occurrence>, dp: int, n: nat)
    ensures KeysFrom(AddOccurrence(occ, dp, n), occ, dp)
  {
    var r := AddOccurrence(occ, dp, n);
    if occ == [] {
    } else if occ[0].drawPosition == dp {
      assert forall i :: 1 <= i < |r| ==> r[i] == occ[i] && Keys(occ)[i] == r[i].drawPosition;
    } else if dp < occ[0].drawPosition {
      assert forall i :: 1 <= i < |r| ==> r[i] == occ[i - 1] && Keys(occ)[i - 1] == r[i].drawPosition;
    } else {
      var tail := occ[1..];
      AddOccurrenceKeys(tail, dp, n);
      var rt := AddOccurrence(tail, dp, n);
      assert KeysFrom(rt, tail, dp);
      assert r == [occ[0]] + rt;
      forall i | 0 < i < |r| ensures r[i].drawPosition == dp || r[i].drawPosition in Keys(occ) {
        assert r[i] == rt[i - 1];
        if rt[i - 1].drawPosition != dp {
          var j :| 0 <= j < |tail| && Keys(tail)[j] == rt[i - 1].drawPosition;
          assert Keys(occ)[j + 1] == Keys(tail)[j];
        }
      }
    }
  }

  /** No entry is left empty. */
  lemma {:induction false} AddOccurrenceNonEmpty(occ: seq<Occurrence>, dp: int, n: nat)
    requires forall i :: 0 <= i < |occ| ==> occ[i].indices != []
    ensures var r := AddOccurrence(occ, dp, n);
      forall i :: 0 <= i < |r| ==> r[i].indices != []
  {
    if occ != [] && occ[0].drawPosition < dp {
      var tail := occ[1..];
      assert forall i :: 0 <= i < |tail| ==> tail[i] == occ[i + 1];
      AddOccurrenceNonEmpty(tail, dp, n);
      assert AddOccurrence(occ, dp, n) == [occ[0]] + AddOccurrence(tail, dp, n);
    }
  }

  /** The keys stay in ascending order. */
  lemma {:induction false} AddOccurrenceIncreasing(occ: seq<Occurrence>, dp: int, n: nat)
    requires KeysIncreasing(occ)
    ensures KeysIncreasing(AddOccurrence(occ, dp, n))
  {
    var r := AddOccurrence(occ, dp, n);
    if occ != [] && occ[0].drawPosition < dp {
      var tail := occ[1..];
      AddOccurrenceIncreasing(tail, dp, n);
      AddOccurrenceKeys(tail, dp, n);
      var rt := AddOccurrence(tail, dp, n);
      assert KeysFrom(rt, tail, dp);
      assert r == [occ[0]] + rt;
      forall i | 0 <= i < |rt| ensures occ[0].drawPosition < rt[i].drawPosition {
        if rt[i].drawPosition != dp {
          assert rt[i].drawPosition in Keys(tail);
          var j :| 0 <= j < |tail| && Keys(tail)[j] == rt[i].drawPosition;
          assert tail[j] == occ[j + 1];
        }
      }
    } else if occ != [] && occ[0].drawPosition == dp {
      assert forall i :: 1 <= i < |r| ==> r[i] == occ[i];
    } else if occ != [] {
      assert forall i :: 1 <= i < |r| ==> r[i] == occ[i - 1];
    }
  }

  lemma AddOccurrenceShape(occ: seq<Occurrence>, dp: int, n: nat)
    requires KeysIncreasing(occ) && forall i :: 0 <= i < |occ| ==> occ[i].indices != []
    ensures var r := AddOccurrence(occ, dp, n);
      && KeysIncreasing(r)
      && (forall i :: 0 <= i < |r| ==> r[i].indices != [])
      && (forall i :: 0 <= i < |r| ==> r[i].drawPosition == dp || r[i].drawPosition in Keys(occ))
  {
    AddOccurrenceKeys(occ, dp, n);
    AddOccurrenceNonEmpty(occ, dp, n);
    AddOccurrenceIncreasing(occ, dp, n);
  }

  lemma {:induction false} KeyAbsent(occ: seq<Occurrence>, dp: int)
    requires KeysIncreasing(occ) && occ != [] && dp <= occ[0].drawPosition
    ensures IndicesOf(occ[1..], dp) == []
  {
    var tail := occ[1..];
    if tail != [] {
      assert occ[0].drawPosition < tail[0].drawPosition;
      assert KeysIncreasing(tail);
      KeyAbsent(tail, dp);
    }
  }

  /** The entry of `dp` gets `index` appended and every other entry stays as it was. */
  lemma {:induction false} AddOccurrenceIndices(occ: seq<Occurrence>, dp: int, n: nat, d: int)
    requires KeysIncreasing(occ)
    ensures IndicesOf(AddOccurrence(occ, dp, n), d) == IndicesOf(occ, d) + (if d == dp then [n] else [])
  {
    var r := AddOccurrence(occ, dp, n);
    if occ == [] {
    } else if occ[0].drawPosition == dp {
      if d != dp {
        assert r[1..] == occ[1..];
      }
    } else if dp < occ[0].drawPosition {
      assert r[1..] == occ;
      if d == dp {
        KeyAbsent(occ, dp);
        assert IndicesOf(occ, d) == [];
      }
    } else {
      assert r[1..] == AddOccurrence(occ[1..], dp, n);
      AddOccurrenceIndices(occ[1..], dp, n, d);
    }
  }

  lemma AppendIncreasing(s: seq<nat>, n: nat)
    requires StrictlyIncreasing(s) && forall k :: k in s ==> k < n
    ensures StrictlyIncreasing(s + [n])
  {
    assert forall i :: 0 <= i < |s| ==> s[i] in s;
  }

  /** The index lists after the insertion: `n` appended to the one of `dp`. */
  lemma AddOccurrenceAll(occ: seq<Occurrence>, dp: int, n: nat)
    requires KeysIncreasing(occ)
    ensures forall d :: IndicesOf(AddOccurrence(occ, dp, n), d) == IndicesOf(occ, d) + (if d == dp then [n] else [])
  {
    forall d ensures IndicesOf(AddOccurrence(occ, dp, n), d) == IndicesOf(occ, d) + (if d == dp then [n] else []) {
      AddOccurrenceIndices(occ, dp, n, d);
    }
  }

  lemma AddOccurrenceAscend(occ: seq<Occurrence>, dp: int, n: nat)
    requires KeysIncreasing(occ) && IndicesAscend(occ) && IndicesBelow(occ, n)
    ensures IndicesAscend(AddOccurrence(occ, dp, n))
  {
    AddOccurrenceAll(occ, dp, n);
    forall d ensures StrictlyIncreasing(IndicesOf(AddOccurrence(occ, dp, n), d)) {
      if d == dp {
        AppendIncreasing(IndicesOf(occ, d), n);
      }
    }
  }

  lemma AddOccurrenceBelow(occ: seq<Occurrence>, dp: int, n: nat)
    requires KeysIncreasing(occ) && IndicesBelow(occ, n)
    ensures IndicesBelow(AddOccurrence(occ, dp, n), n + 1)
  {
    AddOccurrenceAll(occ, dp, n);
  }

  lemma AddOccurrenceDisjoint(occ: seq<Occurrence>, dp: int, n: nat)
    requires KeysIncreasing(occ) && IndicesBelow(occ, n) && IndicesDisjoint(occ)
    ensures IndicesDisjoint(AddOccurrence(occ, dp, n))
  {
    AddOccurrenceAll(occ, dp, n);
  }

  lemma AddOccurrenceValid(occ: seq<Occurrence>, dp: int, n: nat)
    requires OccurrencesValid(occ, n)
    ensures OccurrencesValid(AddOccurrence(occ, dp, n), n + 1)
  {
    AddOccurrenceShape(occ, dp, n);
    AddOccurrenceAscend(occ, dp, n);
    AddOccurrenceBelow(occ, dp, n);
    AddOccurrenceDisjoint(occ, dp, n);
  }

  lemma RecordValid(st: ScanState)
    requires OccurrencesValid(st.occurrences, |st.matches|)
    ensures OccurrencesValid(Record(st), |st.matches| + 1)
  {
    if Truthy(st.lastDrawPosition) {
      AddOccurrenceValid(st.occurrences, st.lastDrawPosition.value, |st.matches|);
    }
  }

  lemma StepInv(st: ScanState, cell: Cell, env: Env)
    requires Inv(st)
    ensures Inv(Step(st, cell, env))
  {
    var s0 := CloseOnJump(st, cell.row);
    if cell.row != st.lastRow + 1 && st.winners != [] {
      RecordValid(st);
    }
    assert Inv(s0);
    var s2 := s0.(lastRow := cell.row).(names := s0.names + [cell.text]);
    assert Inv(s2);
    if env.lookup(cell.text, Count(s0.names, cell.text)).None? {
      RecordValid(s2);
    }
  }

  lemma {:induction false} RunInv(init: ScanState, cells: seq<Cell>, env: Env)
    requires Inv(init)
    ensures Inv(Run(init, cells, env))
  {
    if cells != [] {
      RunInv(init, cells[..|cells| - 1], env);
      StepInv(Run(init, cells[..|cells| - 1], env), cells[|cells| - 1], env);
    }
  }

  /**
   * The shape of every scan result: winners lists without repetitions, a bye only
   * as the last match, no empty winners group closed by a row jump or left as a bye,
   * and an occurrence table over array indices with ascending keys whose index lists
   * ascend, are disjoint and point at matches of the result.
   */
  ghost predicate WellFormed(r: ColumnResult) {
    && (forall k :: 0 <= k < |r.matches| ==> NoDup(r.matches[k].winners))
    && (forall k :: 0 <= k < |r.matches| && r.matches[k].Bye? ==> k == |r.matches| - 1)
    && (forall k :: 0 <= k < |r.matches| && !r.matches[k].Scored? ==> r.matches[k].winners != [])
    && OccurrencesValid(r.roundOccurrences, |r.matches|)
    && (forall k :: 0 <= k < |r.roundOccurrences| ==> r.roundOccurrences[k].drawPosition >= 0)
  }

  lemma {:induction false} IndexEntriesIndices(occ: seq<Occurrence>, d: int)
    ensures IndicesOf(IndexEntries(occ), d) == if d >= 0 then IndicesOf(occ, d) else []
  {
    if occ != [] {
      IndexEntriesIndices(occ[1..], d);
      if occ[0].drawPosition >= 0 {
        assert IndexEntries(occ) == [occ[0]] + IndexEntries(occ[1..]);
      } else {
        assert IndexEntries(occ) == IndexEntries(occ[1..]);
      }
    }
  }

  /** Every key of `occ` lies above `b`. */
  predicate AllAbove(occ: seq<Occurrence>, b: int) {
    forall i :: 0 <= i < |occ| ==> b < occ[i].drawPosition
  }

  lemma {:induction false} IndexEntriesAbove(occ: seq<Occurrence>, b: int)
    requires AllAbove(occ, b)
    ensures AllAbove(IndexEntries(occ), b)
  {
    if occ != [] {
      assert AllAbove(occ[1..], b);
      IndexEntriesAbove(occ[1..], b);
    }
  }

  lemma TailIncreasing(occ: seq<Occurrence>)
    requires KeysIncreasing(occ) && occ != []
    ensures KeysIncreasing(occ[1..]) && AllAbove(occ[1..], occ[0].drawPosition)
  {
    assert forall i :: 0 <= i < |occ[1..]| ==> occ[1..][i] == occ[i + 1];
  }

  lemma ConsIncreasing(x: Occurrence, rest: seq<Occurrence>)
    requires KeysIncreasing(rest) && AllAbove(rest, x.drawPosition)
    ensures KeysIncreasing([x] + rest)
  {
    assert forall i :: 0 < i <= |rest| ==> ([x] + rest)[i] == rest[i - 1];
  }

  lemma {:induction false} IndexEntriesIncreasing(occ: seq<Occurrence>)
    requires KeysIncreasing(occ)
    ensures KeysIncreasing(IndexEntries(occ))
  {
    if occ != [] {
      var tail := occ[1..];
      TailIncreasing(occ);
      IndexEntriesIncreasing(tail);
      if occ[0].drawPosition >= 0 {
        IndexEntriesAbove(tail, occ[0].drawPosition);
        ConsIncreasing(occ[0], IndexEntries(tail));
      }
    }
  }

  lemma IndexEntriesShape(occ: seq<Occurrence>)
    requires KeysIncreasing(occ) && forall i :: 0 <= i < |occ| ==> occ[i].indices != []
    ensures var r := IndexEntries(occ);
      KeysIncreasing(r) && forall i :: 0 <= i < |r| ==> r[i].indices != [] && r[i].drawPosition >= 0
  {
    IndexEntriesIncreasing(occ);
    var r := IndexEntries(occ);
    forall i | 0 <= i < |r| ensures r[i].indices != [] {
      var m :| 0 <= m < |occ| && occ[m] == r[i];
    }
  }

  lemma IndexEntriesValid(occ: seq<Occurrence>, n: nat)
    requires OccurrencesValid(occ, n)
    ensures OccurrencesValid(IndexEntries(occ), n)
  {
    IndexEntriesShape(occ);
    forall d ensures IndicesOf(IndexEntries(occ), d) == if d >= 0 then IndicesOf(occ, d) else [] {
      IndexEntriesIndices(occ, d);
    }
  }

  /** The table stays valid when a match is added after it. */
  lemma OccurrencesGrow(occ: seq<Occurrence>, n: nat)
    requires OccurrencesValid(occ, n)
    ensures OccurrencesValid(occ, n + 1)
  {
  }

  /** The bye left at the end keeps the shape of the state. */
  lemma FinishWellFormed(st: ScanState)
    requires Inv(st)
    ensures WellFormed(Finish(st))
  {
    var occ := IndexEntries(st.occurrences);
    IndexEntriesValid(st.occurrences, |st.matches|);
    IndexEntriesShape(st.occurrences);
    if st.winners != [] {
      OccurrencesGrow(occ, |st.matches|);
    }
  }

  lemma ScanWellFormed(cells: seq<Cell>, offset: int, env: Env)
    ensures WellFormed(Scan(cells, offset, env))
  {
    RunInv(InitialState(cells, offset), cells, env);
    FinishWellFormed(Run(InitialState(cells, offset), cells, env));
  }

  // ---------------------------------------------------------------- what the scan computes

  /** The texts of the cells, in column order: what `names` holds. */
  function Texts(cells: seq<Cell>): (r: seq<string>)
    ensures |r| == |cells|
  {
    if cells == [] then [] else Texts(cells[..|cells| - 1]) + [cells[|cells| - 1].text]
  }

  /** The draw position the last cell resolves to, its `idx` being the number of earlier cells with the same text. */
  function LastLookup(cells: seq<Cell>, env: Env): Option<int>
    requires cells != []
  {
    var before := cells[..|cells| - 1];
    var text := cells[|cells| - 1].text;
    env.lookup(text, Count(Texts(before), text))
  }

  /** The draw positions the cells resolve to, in column order. */
  function Resolved(cells: seq<Cell>, env: Env): seq<int> {
    if cells == [] then []
    else Resolved(cells[..|cells| - 1], env) + (match LastLookup(cells, env) case Some(d) => [d] case None => [])
  }

  /** The normalised texts of the cells that resolve to no draw position, in column order. */
  function Unresolved(cells: seq<Cell>, env: Env): seq<string> {
    if cells == [] then []
    else Unresolved(cells[..|cells| - 1], env) + (if LastLookup(cells, env).None? then [env.normalize(cells[|cells| - 1].text)] else [])
  }

  /** Every draw position named in the matches, in order. */
  function AllWinners(ms: seq<ColumnMatch>): seq<int> {
    if ms == [] then [] else AllWinners(ms[..|ms| - 1]) + ms[|ms| - 1].winners
  }

  /** The results of the scored matches, in order. */
  function ScoredResults(ms: seq<ColumnMatch>): seq<string> {
    if ms == [] then [] else ScoredResults(ms[..|ms| - 1]) + (if ms[|ms| - 1].Scored? then [ms[|ms| - 1].result] else [])
  }

  lemma AppendMatch(ms: seq<ColumnMatch>, m: ColumnMatch)
    ensures AllWinners(ms + [m]) == AllWinners(ms) + m.winners
    ensures ScoredResults(ms + [m]) == ScoredResults(ms) + (if m.Scored? then [m.result] else [])
  {
    assert (ms + [m])[..|ms|] == ms;
  }

  predicate Fresh(init: ScanState) {
    init.names == [] && init.matches == [] && init.winners == []
  }

  /** One turn of the fold, as seen by the winners and the scored results. */
  lemma StepContents(st: ScanState, cell: Cell, env: Env)
    ensures var s := Step(st, cell, env);
      var found := env.lookup(cell.text, Count(st.names, cell.text));
      && s.names == st.names + [cell.text]
      && (forall d :: d in AllWinners(s.matches) + s.winners <==>
            d in AllWinners(st.matches) + st.winners || (found.Some? && d == found.value))
      && ScoredResults(s.matches) == ScoredResults(st.matches) + (if found.None? then [env.normalize(cell.text)] else [])
  {
    var s0 := CloseOnJump(st, cell.row);
    if cell.row != st.lastRow + 1 && st.winners != [] {
      AppendMatch(st.matches, Pending(st.winners));
    }
    assert AllWinners(s0.matches) + s0.winners == AllWinners(st.matches) + st.winners;
    assert ScoredResults(s0.matches) == ScoredResults(st.matches);
    if env.lookup(cell.text, Count(st.names, cell.text)).None? {
      AppendMatch(s0.matches, Scored(s0.winners, env.normalize(cell.text)));
    }
  }

  lemma {:induction false} RunNames(init: ScanState, cells: seq<Cell>, env: Env)
    requires Fresh(init)
    ensures Run(init, cells, env).names == Texts(cells)
  {
    if cells != [] {
      RunNames(init, cells[..|cells| - 1], env);
      StepContents(Run(init, cells[..|cells| - 1], env), cells[|cells| - 1], env);
    }
  }

  lemma {:induction false} RunWinners(init: ScanState, cells: seq<Cell>, env: Env)
    requires Fresh(init)
    ensures var st := Run(init, cells, env);
      forall d :: d in AllWinners(st.matches) + st.winners <==> d in Resolved(cells, env)
  {
    if cells != [] {
      var before := cells[..|cells| - 1];
      RunWinners(init, before, env);
      RunNames(init, before, env);
      StepContents(Run(init, before, env), cells[|cells| - 1], env);
    }
  }

  lemma {:induction false} RunScored(init: ScanState, cells: seq<Cell>, env: Env)
    requires Fresh(init)
    ensures ScoredResults(Run(init, cells, env).matches) == Unresolved(cells, env)
  {
    if cells != [] {
      var before := cells[..|cells| - 1];
      RunScored(init, before, env);
      RunNames(init, before, env);
      StepContents(Run(init, before, env), cells[|cells| - 1], env);
    }
  }

  lemma RunContents(init: ScanState, cells: seq<Cell>, env: Env)
    requires Fresh(init)
    ensures var st := Run(init, cells, env);
      && st.names == Texts(cells)
      && (forall d :: d in AllWinners(st.matches) + st.winners <==> d in Resolved(cells, env))
      && ScoredResults(st.matches) == Unresolved(cells, env)
  {
    RunNames(init, cells, env);
    RunWinners(init, cells, env);
    RunScored(init, cells, env);
  }

  /**
   * Nothing is lost or invented: a draw position appears among the winners of the
   * result exactly when some cell of the column resolves to it, and the scored
   * matches carry, in order, the normalised texts of the cells that resolve to none.
   */
  lemma ScanContents(cells: seq<Cell>, offset: int, env: Env)
    ensures forall d :: d in AllWinners(Scan(cells, offset, env).matches) <==> d in Resolved(cells, env)
    ensures ScoredResults(Scan(cells, offset, env).matches) == Unresolved(cells, env)
  {
    var st := Run(InitialState(cells, offset), cells, env);
    RunContents(InitialState(cells, offset), cells, env);
    if st.winners != [] {
      AppendMatch(st.matches, Bye(st.winners));
    }
  }

  /** The `idx` handed to the lookup for cell i is the number of earlier cells with the same text. */
  lemma NamesAreEarlierTexts(cells: seq<Cell>, offset: int, env: Env, i: nat)
    requires i < |cells|
    ensures Run(InitialState(cells, offset), cells[..i], env).names == Texts(cells[..i])
    ensures Count(Run(InitialState(cells, offset), cells[..i], env).names, cells[i].text) == Count(Texts(cells[..i]), cells[i].text)
  {
    RunContents(InitialState(cells, offset), cells[..i], env);
  }

  /** The fold read from the front: the first cell's step, then the rest. */
  lemma {:induction false} RunFront(init: ScanState, cells: seq<Cell>, env: Env)
    requires cells != []
    ensures Run(init, cells, env) == Run(Step(init, cells[0], env), cells[1..], env)
  {
    if |cells| > 1 {
      var before := cells[..|cells| - 1];
      RunFront(init, before, env);
      assert before[1..] == cells[1..][..|cells[1..]| - 1];
      assert before[0] == cells[0];
    } else {
      assert cells[..0] == [];
      assert cells[1..] == [];
    }
  }

  /**
   * The starting row offset never shows in the result: winners are empty at the
   * first cell, so the row test cannot close a match there, and the first cell's
   * row replaces `last_row_number`. The doubles `rowOffset` therefore has no effect.
   */
  lemma ScanIgnoresOffset(cells: seq<Cell>, o1: int, o2: int, env: Env)
    ensures Scan(cells, o1, env) == Scan(cells, o2, env)
  {
    if cells != [] {
      RunFront(InitialState(cells, o1), cells, env);
      RunFront(InitialState(cells, o2), cells, env);
      assert Step(InitialState(cells, o1), cells[0], env) == Step(InitialState(cells, o2), cells[0], env);
    }
  }

  /** A column whose last cell names a participant ends in a bye holding that position. */
  lemma EndsInBye(cells: seq<Cell>, offset: int, env: Env)
    requires cells != [] && LastLookup(cells, env).Some?
    ensures var ms := Scan(cells, offset, env).matches;
      ms != [] && ms[|ms| - 1].Bye? && LastLookup(cells, env).value in ms[|ms| - 1].winners
  {
    var init := InitialState(cells, offset);
    var before := cells[..|cells| - 1];
    var cell := cells[|cells| - 1];
    RunNames(init, before, env);
    var st := Run(init, before, env);
    var s1 := CloseOnJump(st, cell.row).(lastRow := cell.row);
    assert s1.names == Texts(before);
    var dp := LastLookup(cells, env).value;
    assert env.lookup(cell.text, Count(s1.names, cell.text)) == Some(dp);
    var next := Run(init, cells, env);
    assert next == Step(st, cell, env);
    assert dp in next.winners;
  }

  /** A column whose last cell is a score ends in that scored match, without a bye. */
  lemma EndsInScore(cells: seq<Cell>, offset: int, env: Env)
    requires cells != [] && LastLookup(cells, env).None?
    ensures var ms := Scan(cells, offset, env).matches;
      ms != [] && ms[|ms| - 1].Scored? && ms[|ms| - 1].result == env.normalize(cells[|cells| - 1].text)
  {
    var before := cells[..|cells| - 1];
    RunContents(InitialState(cells, offset), before, env);
  }

  // ---------------------------------------------------------------- what the occurrence table means

  /** The draw position of the last cell that resolves to one; None when no cell does. */
  function LastResolved(cells: seq<Cell>, env: Env): Option<int> {
    if cells == [] then None
    else match LastLookup(cells, env)
      case Some(d) => Some(d)
      case None => LastResolved(cells[..|cells| - 1], env)
  }

  /**
   * Cell i (not the first) closes a match before it is read when its row does not
   * follow the row above and the cell above named a participant, so that winners
   * are pending.
   */
  predicate JumpCloses(cells: seq<Cell>, env: Env, i: nat)
    requires i < |cells|
  {
    0 < i && cells[i].row != cells[i - 1].row + 1 && LastLookup(cells[..i], env).Some?
  }

  /**
   * The matches the column closes, in order, each given by the number of cells
   * read before it was closed: at each cell a row jump may close one, and then a
   * score cell closes one. The bye left at the end is not a closing.
   */
  function Closings(cells: seq<Cell>, env: Env): (r: seq<nat>)
    ensures forall k :: 0 <= k < |r| ==> r[k] < |cells|
  {
    if cells == [] then []
    else
      var i := |cells| - 1;
      Closings(cells[..i], env)
        + (if JumpCloses(cells, env, i) then [i] else [])
        + (if LastLookup(cells, env).None? then [i] else [])
  }

  /** The last draw position resolved before the k-th match was closed. */
  function ClosingPosition(cells: seq<Cell>, env: Env, k: nat): Option<int>
    requires k < |Closings(cells, env)|
  {
    LastResolved(cells[..Closings(cells, env)[k]], env)
  }

  /** Match k was closed while `d`, a truthy draw position, was the last one resolved. */
  predicate ClosedUnder(cells: seq<Cell>, env: Env, k: nat, d: int) {
    k < |Closings(cells, env)| && d != 0 && ClosingPosition(cells, env, k) == Some(d)
  }

  /** How the fold's state after `cells` reflects the cells. */
  ghost predicate Tracks(st: ScanState, cells: seq<Cell>, env: Env) {
    && |st.matches| == |Closings(cells, env)|
    && st.lastDrawPosition == LastResolved(cells, env)
    && (st.winners != [] <==> cells != [] && LastLookup(cells, env).Some?)
    && (cells != [] ==> st.lastRow == cells[|cells| - 1].row)
    && forall d, k: nat :: k in IndicesOf(st.occurrences, d) <==> ClosedUnder(cells, env, k, d)
  }

  /** Recording adds the index of the match being closed under the latest position, if truthy, and nothing else. */
  lemma RecordIndices(st: ScanState, d: int, k: nat)
    requires KeysIncreasing(st.occurrences)
    ensures KeysIncreasing(Record(st))
    ensures k in IndicesOf(Record(st), d) <==>
      k in IndicesOf(st.occurrences, d) || (k == |st.matches| && Truthy(st.lastDrawPosition) && st.lastDrawPosition.value == d)
  {
    if Truthy(st.lastDrawPosition) {
      AddOccurrenceIncreasing(st.occurrences, st.lastDrawPosition.value, |st.matches|);
      AddOccurrenceIndices(st.occurrences, st.lastDrawPosition.value, |st.matches|, d);
    }
  }

  /** One step adds the indices of the matches it closes under the latest position, if truthy. */
  lemma StepIndices(st: ScanState, cell: Cell, env: Env, d: int, k: nat)
    requires KeysIncreasing(st.occurrences)
    ensures var s := Step(st, cell, env);
      k in IndicesOf(s.occurrences, d) <==>
        k in IndicesOf(st.occurrences, d) || (|st.matches| <= k < |s.matches| && Truthy(st.lastDrawPosition) && st.lastDrawPosition.value == d)
  {
    var s0 := CloseOnJump(st, cell.row);
    if cell.row != st.lastRow + 1 && st.winners != [] {
      RecordIndices(st, d, k);
    }
    assert KeysIncreasing(s0.occurrences) by {
      if cell.row != st.lastRow + 1 && st.winners != [] {
        RecordIndices(st, d, k);
      }
    }
    var s2 := s0.(lastRow := cell.row).(names := s0.names + [cell.text]);
    if env.lookup(cell.text, Count(s0.names, cell.text)).None? {
      RecordIndices(s2, d, k);
    }
  }

  /** The old closings keep their positions when a cell is added. */
  lemma ClosedUnderOld(cells: seq<Cell>, env: Env, k: nat, d: int)
    requires cells != [] && k < |Closings(cells[..|cells| - 1], env)|
    ensures ClosedUnder(cells, env, k, d) <==> ClosedUnder(cells[..|cells| - 1], env, k, d)
  {
    var before := cells[..|cells| - 1];
    var c := Closings(before, env)[k];
    assert Closings(cells, env)[k] == c;
    assert cells[..c] == before[..c];
  }

  /** The closings the last cell makes happen after every earlier cell was read. */
  lemma ClosedUnderNew(cells: seq<Cell>, env: Env, k: nat, d: int)
    requires cells != [] && |Closings(cells[..|cells| - 1], env)| <= k < |Closings(cells, env)|
    ensures ClosedUnder(cells, env, k, d) <==> d != 0 && LastResolved(cells[..|cells| - 1], env) == Some(d)
  {
    assert Closings(cells, env)[k] == |cells| - 1;
  }

  lemma TracksStep(st: ScanState, cells: seq<Cell>, env: Env)
    requires cells != []
    requires Tracks(st, cells[..|cells| - 1], env) && st.names == Texts(cells[..|cells| - 1])
    requires KeysIncreasing(st.occurrences)
    ensures Tracks(Step(st, cells[|cells| - 1], env), cells, env)
  {
    var before := cells[..|cells| - 1];
    var cell := cells[|cells| - 1];
    var s := Step(st, cell, env);
    assert env.lookup(cell.text, Count(st.names, cell.text)) == LastLookup(cells, env);
    assert |before| > 0 ==> cells[|cells| - 2] == before[|before| - 1];
    assert (cell.row != st.lastRow + 1 && st.winners != []) == JumpCloses(cells, env, |cells| - 1);
    assert |s.matches| == |Closings(cells, env)|;
    forall d, k: nat ensures k in IndicesOf(s.occurrences, d) <==> ClosedUnder(cells, env, k, d) {
      StepIndices(st, cell, env, d, k);
      if k < |st.matches| {
        ClosedUnderOld(cells, env, k, d);
      } else if k < |s.matches| {
        ClosedUnderNew(cells, env, k, d);
      }
    }
  }

  lemma {:induction false} RunTracks(init: ScanState, cells: seq<Cell>, env: Env)
    requires Fresh(init) && init.lastDrawPosition == None && init.occurrences == []
    ensures Tracks(Run(init, cells, env), cells, env)
  {
    if cells != [] {
      var before := cells[..|cells| - 1];
      RunTracks(init, before, env);
      RunNames(init, before, env);
      RunInv(init, before, env);
      TracksStep(Run(init, before, env), cells, env);
    }
  }

  /** Dropping the negative keys leaves the positive positions the table was tied to. */
  lemma EntriesMeaning(occ: seq<Occurrence>, cells: seq<Cell>, env: Env, d: int, k: nat)
    requires forall d, k: nat :: k in IndicesOf(occ, d) <==> ClosedUnder(cells, env, k, d)
    ensures k in IndicesOf(IndexEntries(occ), d) <==>
      0 < d && ClosedUnder(cells, env, k, d)
  {
    IndexEntriesIndices(occ, d);
    assert k in IndicesOf(occ, d) <==> ClosedUnder(cells, env, k, d);
  }

  lemma FinishMeaning(st: ScanState, cells: seq<Cell>, env: Env)
    requires Tracks(st, cells, env) && Inv(st)
    ensures var r := Finish(st);
      |r.matches| == |Closings(cells, env)| + (if cells != [] && LastLookup(cells, env).Some? then 1 else 0)
    ensures var r := Finish(st);
      (cells != [] && LastLookup(cells, env).Some?) <==> (r.matches != [] && r.matches[|r.matches| - 1].Bye?)
    ensures forall d: int, k: nat :: k in IndicesOf(Finish(st).roundOccurrences, d) <==>
      0 < d && ClosedUnder(cells, env, k, d)
  {
    forall d: int, k: nat ensures k in IndicesOf(Finish(st).roundOccurrences, d) <==>
      0 < d && ClosedUnder(cells, env, k, d)
    {
      EntriesMeaning(st.occurrences, cells, env, d, k);
    }
  }

  /**
   * What `round_occurrences` means: match k is listed under draw position d exactly
   * when d is positive and was the last draw position resolved before match k was
   * closed by a row jump or a score cell; the matches are these closings in order,
   * followed by a bye exactly when the column's last cell names a participant.
   */
  lemma ScanOccurrences(cells: seq<Cell>, offset: int, env: Env)
    ensures var r := Scan(cells, offset, env);
      |r.matches| == |Closings(cells, env)| + (if cells != [] && LastLookup(cells, env).Some? then 1 else 0)
    ensures var r := Scan(cells, offset, env);
      (cells != [] && LastLookup(cells, env).Some?) <==> (r.matches != [] && r.matches[|r.matches| - 1].Bye?)
    ensures forall d: int, k: nat :: k in IndicesOf(Scan(cells, offset, env).roundOccurrences, d) <==>
      0 < d && ClosedUnder(cells, env, k, d)
  {
    RunTracks(InitialState(cells, offset), cells, env);
    RunInv(InitialState(cells, offset), cells, env);
    FinishMeaning(Run(InitialState(cells, offset), cells, env), cells, env);
  }
}
