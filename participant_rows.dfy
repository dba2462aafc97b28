/**
 * `getParticipantRows`: the rows of a draw sheet that hold participants.
 * Cells between the header and the footer row, in single-letter columns and
 * matching no skip expression, are sorted by the profile's columns into
 * row lists (names, clubs and ids without skip words, numeric seeds, draw
 * positions, valid rankings, round robin results). Their union is cut to
 * the stretch from the first participant row to the last draw row, without
 * the avoided rows; a profile with gaps narrows the draw rows to one gap
 * and may name the pre-round rows and, in a round robin, the finals.
 */
module ParticipantRows {
  import opened Common
  import opened Sheets
  import G = Gaps

  /** The columns a profile gives the participant attributes; none for a column it does not name. */
  datatype Columns = Columns(
    players: Option<char>,
    firstName: Option<char>,
    lastName: Option<char>,
    club: Option<char>,
    id: Option<char>,
    seed: Option<char>,
    position: Option<char>,
    rank: Option<char>,
    entry: Option<char>,
    country: Option<char>,
    roundRobinResult: Option<char>)

  /** `profile.gaps.draw`: the term whose repeated blocks delimit the gaps, and which gap holds the draw. */
  datatype GapRule = GapRule(term: string, gap: int)

  /** What the routine reads from a profile. `preroundGap` is `profile.gaps.preround.gap`. */
  datatype Profile = Profile(skipWords: seq<string>, skipExpressions: seq<string>, drawGap: Option<GapRule>, preroundGap: Option<int>)

  /**
   * The helpers the routine calls from modules outside this model:
   * - `matches(value, expression)` is `new RegExp(expression, "g").test(value)`;
   * - `isString(ref)` says the cell holds a string rather than a number;
   * - `validRanking` is the ranking validator;
   * - `numberValue(col, row)` is the number in a cell, 0 for anything falsy;
   * - `maxInstance(rows)` is `parseInt(maxInstance(rows))`, none for NaN;
   * - `containing(term)` is `cellsContaining({sheet, term})`.
   */
  datatype Env = Env(
    matches: (string, string) -> bool,
    isString: CellRef -> bool,
    validRanking: string -> bool,
    numberValue: (char, int) -> int,
    maxInstance: seq<int> -> Option<int>,
    containing: string -> seq<CellRef>)

  /** `range: [startRow, endRow]`, none standing for an undefined or NaN bound. */
  datatype RowRange = RowRange(start: Option<int>, end: Option<int>)

  /** The routine's result; `range` and `finals` are none when undefined. */
  datatype Selection = Selection(rows: seq<int>, range: Option<RowRange>, finals: Option<seq<int>>, preRoundRows: seq<int>)

  // ---------------------------------------------------------------- cell filters

  /** `row && row > headerRow && row < footerRow`; an undefined bound admits no row. */
  predicate InRowBand(row: int, headerRow: Option<int>, footerRow: Option<int>) {
    row != 0 && headerRow.Some? && footerRow.Some? && headerRow.value < row < footerRow.value
  }

  /** The reduce over the skip expressions: the value is non-empty and one of them matches it. */
  predicate SkipExpression(value: string, expressions: seq<string>, matches: (string, string) -> bool) {
    value != "" && exists i :: 0 <= i < |expressions| && matches(value, expressions[i])
  }

  /** The keys that pass `inRowBand` and `isNotSkipExpression`. */
  predicate Candidate(e: Entry, headerRow: Option<int>, footerRow: Option<int>, p: Profile, env: Env) {
    InRowBand(e.ref.row, headerRow, footerRow) && !SkipExpression(e.text, p.skipExpressions, env.matches)
  }

  function Candidates(sheet: Sheet, headerRow: Option<int>, footerRow: Option<int>, p: Profile, env: Env): seq<Entry> {
    Filter(sheet, e => Candidate(e, headerRow, footerRow, p, env))
  }

  /** `targetColumn(key, column)`: a column the profile does not name matches no key. */
  predicate InColumn(e: Entry, col: Option<char>) {
    col.Some? && e.ref.col == col.value
  }

  function LowerAll(words: seq<string>): (r: seq<string>)
    ensures |r| == |words| && forall i :: 0 <= i < |words| ==> r[i] == ToLower(words[i])
  {
    seq(|words|, i requires 0 <= i < |words| => ToLower(words[i]))
  }

  /** A name, club or id cell: a non-empty string that equals no skip word, ignoring case. */
  predicate NamedCell(e: Entry, col: Option<char>, skipWords: seq<string>, env: Env) {
    InColumn(e, col) && e.text != "" && env.isString(e.ref) && ToLower(e.text) !in LowerAll(skipWords)
  }

  /** `/^\d+(a)?$/`: digits, optionally followed by one "a". */
  predicate NumericText(s: string) {
    (s != [] && AllDigits(s)) || (|s| >= 2 && s[|s| - 1] == 'a' && AllDigits(s[..|s| - 1]))
  }

  /** `/^\d+[\.]*$/`: digits, then nothing but dots. */
  predicate DigitsThenDots(s: string) {
    exists k :: 0 < k <= |s| && AllDigits(s[..k]) && forall j :: k <= j < |s| ==> s[j] == '.'
  }

  /** The rows of the entries a filter keeps, in key order. */
  function RowsWhere(entries: seq<Entry>, keep: Entry -> bool): seq<int> {
    Rows(Refs(Filter(entries, keep)))
  }

  // ---------------------------------------------------------------- row sources

  /** The row lists the routine collects, before their union. */
  datatype Sources = Sources(
    playerNames: seq<int>,
    firstNames: seq<int>,
    lastNames: seq<int>,
    clubs: seq<int>,
    ids: seq<int>,
    seeds: seq<int>,
    drawPositions: seq<int>,
    rankings: seq<int>,
    roundRobinResult: seq<int>)

  function NamedRows(cands: seq<Entry>, col: Option<char>, skipWords: seq<string>, env: Env): seq<int> {
    RowsWhere(cands, e => NamedCell(e, col, skipWords, env))
  }

  /**
   * The round robin result rows look at every key of the sheet, not only the
   * candidates; without a result column there are none.
   */
  function ResultRows(sheet: Sheet, col: Option<char>): seq<int> {
    RowsWhere(sheet, e => InColumn(e, col) && DigitsThenDots(e.text))
  }

  /** With a result column, only rankings on result rows stay. */
  function RankRows(cands: seq<Entry>, columns: Columns, results: seq<int>, env: Env): seq<int> {
    var rankings := RowsWhere(cands, e => InColumn(e, columns.rank) && env.validRanking(e.text));
    if columns.roundRobinResult.Some? then Filter(rankings, r => r in results) else rankings
  }

  function SourcesOf(sheet: Sheet, headerRow: Option<int>, footerRow: Option<int>, columns: Columns, p: Profile, env: Env): Sources {
    var cands := Candidates(sheet, headerRow, footerRow, p, env);
    var results := ResultRows(sheet, columns.roundRobinResult);
    Sources(
      NamedRows(cands, columns.players, p.skipWords, env),
      NamedRows(cands, columns.firstName, p.skipWords, env),
      NamedRows(cands, columns.lastName, p.skipWords, env),
      NamedRows(cands, columns.club, p.skipWords, env),
      NamedRows(cands, columns.id, p.skipWords, env),
      RowsWhere(cands, e => InColumn(e, columns.seed) && NumericText(e.text)),
      RowsWhere(cands, e => InColumn(e, columns.position)),
      RankRows(cands, columns, results, env),
      results)
  }

  /** `sources`, in the order of the script (player names are not among them). */
  function SourceList(s: Sources): seq<seq<int>> {
    [s.ids, s.seeds, s.firstNames, s.lastNames, s.drawPositions, s.rankings, s.clubs, s.roundRobinResult]
  }

  /** `allRows`: the union of the sources, each row once, ascending. */
  function AllRows(s: Sources): seq<int> {
    SortInts(Unique(Flatten(SourceList(s))))
  }

  // ---------------------------------------------------------------- ordered draw positions

  predicate Truthy(x: int) { x != 0 }

  /** The numbers read from the position column at the draw position rows. */
  function PositionValues(rows: seq<int>, col: Option<char>, env: Env): seq<int> {
    seq(|rows|, i requires 0 <= i < |rows| => if col.Some? then env.numberValue(col.value, rows[i]) else 0)
  }

  /** The draw positions are ordered when the numbers among them, in row order, are 1, 2, 3, ... */
  predicate CountsUp(values: seq<int>) {
    Filter(values, Truthy) == Range(1, |Filter(values, Truthy)| + 1)
  }

  /** A list extended by one value counts up exactly when the list does and the value is the next number. */
  lemma CountsUpStep(nz: seq<int>, x: int)
    ensures nz + [x] == Range(1, |nz| + 2) <==> nz == Range(1, |nz| + 1) && x == |nz| + 1
  {
    var longer := Range(1, |nz| + 2);
    if nz + [x] == longer {
      forall k | 0 <= k < |nz| ensures nz[k] == Range(1, |nz| + 1)[k] {
        assert nz[k] == (nz + [x])[k];
      }
      assert x == (nz + [x])[|nz|];
    }
    if nz == Range(1, |nz| + 1) && x == |nz| + 1 {
      assert forall k :: 0 <= k < |nz| + 1 ==> (nz + [x])[k] == longer[k];
    }
  }

  /**
   * `drawPositionsAreOrdered`: the reduce with its counter `expectedDrawPosition`.
   * A falsy value passes; a number must be the one expected next.
   */
  method DrawPositionsOrdered(values: seq<int>) returns (ordered: bool)
    ensures ordered <==> CountsUp(values)
  {
    var expected := 1;
    ordered := true;
    assert values[..0] == [];
    for i := 0 to |values|
      invariant ordered <==> CountsUp(values[..i])
      invariant ordered ==> expected == |Filter(values[..i], Truthy)| + 1
    {
      var nz := Filter(values[..i], Truthy);
      assert values[..i + 1] == values[..i] + [values[i]];
      FilterAppend(values[..i], values[i], Truthy);
      var isExpected := values[i] == expected;
      if Truthy(values[i]) {
        CountsUpStep(nz, values[i]);
      }
      if isExpected {
        expected := expected + 1;
      }
      ordered := (values[i] == 0 || isExpected) && ordered;
    }
    assert values[..|values|] == values;
  }

  // ---------------------------------------------------------------- gaps

  /** `gaps[index]`, undefined outside the list. */
  function GapAt(gaps: seq<(int, int)>, index: int): Option<(int, int)> {
    if 0 <= index < |gaps| then Some(gaps[index]) else None
  }

  /** `rows.filter(row => row > gap[0] && row < gap[1])`: an undefined gap is dereferenced only when there is a row to test. */
  function WithinGap(rows: seq<int>, gap: Option<(int, int)>): Result<seq<int>> {
    if gap.None? then (if rows == [] then Ok([]) else Err("TypeError: gap is undefined"))
    else Ok(Filter(rows, r => gap.value.0 < r < gap.value.1))
  }

  /** What the gaps decide: the draw rows (undefined unless narrowed), the finals and the pre-round rows. */
  datatype Banding = Banding(drawRows: Option<seq<int>>, finals: Option<seq<int>>, preRoundRows: seq<int>)

  const Unbanded: Banding := Banding(None, None, [])

  /** The gap step once the gaps of the draw term are found. */
  function Band(gaps: seq<(int, int)>, p: Profile, roundRobin: bool, allRows: seq<int>, playerNames: seq<int>): Result<Banding>
    requires p.drawGap.Some?
  {
    if gaps == [] then Ok(Unbanded)
    else
      var gap := GapAt(gaps, p.drawGap.value.gap);
      match WithinGap(if roundRobin then playerNames else allRows, gap)
      case Err(e) => Err(e)
      case Ok(within) =>
        var drawRows := if roundRobin then None else Some(within);
        var finals := if roundRobin then Some(within) else None;
        if |gaps| == 1 then Ok(Banding(drawRows, finals, []))
        else if p.preroundGap.None? then Err("TypeError: profile.gaps.preround is undefined")
        else
          match WithinGap(allRows, GapAt(gaps, p.preroundGap.value))
          case Err(e) => Err(e)
          case Ok(pre) => Ok(Banding(drawRows, finals, pre))
  }

  /** The gaps of the rows that hold the draw term. */
  function DrawGaps(term: string, env: Env): seq<(int, int)> {
    G.GapsOf([0] + Unique(Rows(env.containing(term))))
  }

  function Banded(p: Profile, columns: Columns, s: Sources, env: Env): Result<Banding> {
    if p.drawGap.None? then Ok(Unbanded)
    else Band(DrawGaps(p.drawGap.value.term, env), p, columns.roundRobinResult.Some?, AllRows(s), s.playerNames)
  }

  // ---------------------------------------------------------------- range and result

  /** `sources.map(source => source[0]).filter(Boolean)` */
  function Heads(ss: seq<seq<int>>): seq<int> {
    if ss == [] then [] else (if ss[0] != [] && ss[0][0] != 0 then [ss[0][0]] else []) + Heads(ss[1..])
  }

  /** `orderedStartRow || parseInt(maxInstance(startRows))` */
  function StartRow(s: Sources, ordered: bool, env: Env): Option<int> {
    if |s.drawPositions| > 0 && ordered && s.drawPositions[0] != 0 then Some(s.drawPositions[0])
    else env.maxInstance(Heads(SourceList(s)))
  }

  /** `drawRows[drawRows.length - 1]` */
  function EndRow(drawRows: seq<int>): Option<int> {
    if drawRows == [] then None else Some(drawRows[|drawRows| - 1])
  }

  /** `row >= startRow && row <= endRow`: false against an undefined or NaN bound. */
  predicate InSpan(row: int, start: Option<int>, end: Option<int>) {
    start.Some? && end.Some? && start.value <= row <= end.value
  }

  /** The finals without the draw rows, undefined when none is left. */
  function FinalsOf(finals: Option<seq<int>>, drawRows: seq<int>): Option<seq<int>> {
    if finals.None? then None
    else
      var left := Filter(finals.value, f => f !in drawRows);
      if left == [] then None else Some(left)
  }

  function Assemble(s: Sources, b: Banding, ordered: bool, avoidRows: seq<int>, env: Env): Selection {
    var allRows := AllRows(s);
    var drawRows := if b.drawRows.Some? then b.drawRows.value else allRows;
    var start := StartRow(s, ordered, env);
    var end := EndRow(drawRows);
    Selection(Filter(allRows, r => InSpan(r, start, end) && r !in avoidRows), Some(RowRange(start, end)), FinalsOf(b.finals, drawRows), b.preRoundRows)
  }

  /** `getParticipantRows`; a gap lookup that dereferences an undefined gap is an error. */
  function ParticipantRowsOf(sheet: Sheet, headerRow: Option<int>, footerRow: Option<int>, avoidRows: seq<int>,
                             columns: Columns, profile: Option<Profile>, env: Env): (r: Result<Selection>)
    ensures profile.None? ==> r == Ok(Selection([], None, None, []))
    ensures r.Err? ==> profile.Some? && profile.value.drawGap.Some?
  {
    if profile.None? then Ok(Selection([], None, None, []))
    else
      var s := SourcesOf(sheet, headerRow, footerRow, columns, profile.value, env);
      match Banded(profile.value, columns, s, env)
      case Err(e) => Err(e)
      case Ok(b) => Ok(Assemble(s, b, CountsUp(PositionValues(s.drawPositions, columns.position, env)), avoidRows, env))
  }

  /** The routine step by step: the ordering reduce and `findGaps` are its loops. */
  method GetParticipantRows(sheet: Sheet, headerRow: Option<int>, footerRow: Option<int>, avoidRows: seq<int>,
                            columns: Columns, profile: Option<Profile>, env: Env) returns (r: Result<Selection>)
    ensures r == ParticipantRowsOf(sheet, headerRow, footerRow, avoidRows, columns, profile, env)
  {
    if profile.None? {
      return Ok(Selection([], None, None, []));
    }
    var p := profile.value;
    var s := SourcesOf(sheet, headerRow, footerRow, columns, p, env);
    var ordered := DrawPositionsOrdered(PositionValues(s.drawPositions, columns.position, env));
    var banding := Unbanded;
    if p.drawGap.Some? {
      var gaps := G.FindGaps(Rows(env.containing(p.drawGap.value.term)));
      var b := Band(gaps, p, columns.roundRobinResult.Some?, AllRows(s), s.playerNames);
      if b.Err? {
        return Err(b.reason);
      }
      banding := b.value;
    }
    r := Ok(Assemble(s, banding, ordered, avoidRows, env));
  }

  // ---------------------------------------------------------------- properties

  /** A row of a filtered list of entries is the row of an entry the filter keeps. */
  lemma RowsWhereMembers(entries: seq<Entry>, keep: Entry -> bool, row: int)
    ensures row in RowsWhere(entries, keep) <==> exists e :: e in entries && keep(e) && e.ref.row == row
  {
    var kept := Filter(entries, keep);
    if row in RowsWhere(entries, keep) {
      var i :| 0 <= i < |kept| && Rows(Refs(kept))[i] == row;
      FilterMembers(entries, keep, kept[i]);
    }
    if exists e :: e in entries && keep(e) && e.ref.row == row {
      var e :| e in entries && keep(e) && e.ref.row == row;
      FilterMembers(entries, keep, e);
      var i :| 0 <= i < |kept| && kept[i] == e;
      assert Rows(Refs(kept))[i] == row;
    }
  }

  /**
   * A name, club or id row is the row of a sheet cell in the band, matching
   * no skip expression, in the column, holding a non-empty string that is no
   * skip word, whatever the case of either.
   */
  lemma NamedRowsMembers(sheet: Sheet, headerRow: Option<int>, footerRow: Option<int>, p: Profile, env: Env, col: Option<char>, row: int)
    ensures row in NamedRows(Candidates(sheet, headerRow, footerRow, p, env), col, p.skipWords, env) <==>
      exists e :: e in sheet && e.ref.row == row
        && InRowBand(row, headerRow, footerRow) && !SkipExpression(e.text, p.skipExpressions, env.matches)
        && InColumn(e, col) && e.text != "" && env.isString(e.ref)
        && forall w :: w in p.skipWords ==> ToLower(w) != ToLower(e.text)
  {
    var cands := Candidates(sheet, headerRow, footerRow, p, env);
    var keep := e => NamedCell(e, col, p.skipWords, env);
    RowsWhereMembers(cands, keep, row);
    forall e: Entry ensures (ToLower(e.text) !in LowerAll(p.skipWords)) <==> forall w :: w in p.skipWords ==> ToLower(w) != ToLower(e.text) {
      if ToLower(e.text) in LowerAll(p.skipWords) {
        var i :| 0 <= i < |p.skipWords| && LowerAll(p.skipWords)[i] == ToLower(e.text);
        assert p.skipWords[i] in p.skipWords;
      }
      if exists w :: w in p.skipWords && ToLower(w) == ToLower(e.text) {
        var w :| w in p.skipWords && ToLower(w) == ToLower(e.text);
        var i :| 0 <= i < |p.skipWords| && p.skipWords[i] == w;
        assert LowerAll(p.skipWords)[i] == ToLower(e.text);
      }
    }
    forall e | e in sheet ensures e in cands <==> Candidate(e, headerRow, footerRow, p, env) {
      FilterMembers(sheet, e => Candidate(e, headerRow, footerRow, p, env), e);
    }
    forall e | e in cands ensures e in sheet {
      FilterMembers(sheet, e => Candidate(e, headerRow, footerRow, p, env), e);
    }
  }

  /** Sorting a list without duplicates leaves it strictly increasing. */
  lemma SortedDistinctInts(u: seq<int>)
    requires NoDup(u)
    ensures forall i, j :: 0 <= i < j < |SortInts(u)| ==> SortInts(u)[i] < SortInts(u)[j]
  {
    var r := SortInts(u);
    forall i, j | 0 <= i < j < |r| ensures r[i] < r[j] {
      DistinctPair(u, r, i, j);
    }
  }

  /** `allRows` is strictly increasing and holds exactly the rows of the sources. */
  lemma AllRowsShape(s: Sources, row: int)
    ensures forall i, j :: 0 <= i < j < |AllRows(s)| ==> AllRows(s)[i] < AllRows(s)[j]
    ensures row in AllRows(s) <==> exists k :: 0 <= k < |SourceList(s)| && row in SourceList(s)[k]
  {
    var flat := Flatten(SourceList(s));
    SortedDistinctInts(Unique(flat));
    InFlatten(SourceList(s), row);
    assert row in AllRows(s) <==> row in multiset(AllRows(s));
    assert row in Unique(flat) <==> row in multiset(Unique(flat));
    if row in Unique(flat) {
      UniqueFrom(flat, row);
    }
    if row in flat {
      UniqueMember(flat, row);
    }
  }

  /**
   * The rows returned are those of `allRows` between the start and the end
   * row that are not avoided, in ascending order.
   */
  lemma RowsShape(s: Sources, b: Banding, ordered: bool, avoidRows: seq<int>, env: Env, row: int)
    ensures var sel := Assemble(s, b, ordered, avoidRows, env);
      && sel.range.Some?
      && (forall i, j :: 0 <= i < j < |sel.rows| ==> sel.rows[i] < sel.rows[j])
      && (row in sel.rows <==>
            row in AllRows(s) && InSpan(row, sel.range.value.start, sel.range.value.end) && row !in avoidRows)
  {
    var allRows := AllRows(s);
    var drawRows := if b.drawRows.Some? then b.drawRows.value else allRows;
    var start := StartRow(s, ordered, env);
    var end := EndRow(drawRows);
    var keep := r => InSpan(r, start, end) && r !in avoidRows;
    AllRowsShape(s, row);
    FilterMembers(allRows, keep, row);
    FilterOrdered(allRows, keep);
  }

  /** A filter keeps a strictly increasing list strictly increasing. */
  lemma {:induction false} FilterOrdered(s: seq<int>, p: int -> bool)
    requires forall i, j :: 0 <= i < j < |s| ==> s[i] < s[j]
    ensures forall i, j :: 0 <= i < j < |Filter(s, p)| ==> Filter(s, p)[i] < Filter(s, p)[j]
  {
    if s != [] {
      var f, t := Filter(s, p), Filter(s[1..], p);
      FilterOrdered(s[1..], p);
      assert f == (if p(s[0]) then [s[0]] else []) + t;
      forall x | x in t ensures s[0] < x {
        FilterMembers(s[1..], p, x);
        var k :| 0 <= k < |s[1..]| && s[1..][k] == x;
        assert s[k + 1] == x;
      }
      if p(s[0]) {
        forall i, j | 0 <= i < j < |f| ensures f[i] < f[j] {
          assert f[j] == t[j - 1] && t[j - 1] in t;
          if i > 0 {
            assert f[i] == t[i - 1];
          }
        }
      }
    }
  }

  /**
   * The gap step: the finals are the player name rows inside the draw gap and
   * come only with a result column; otherwise the draw rows are the rows of
   * `allRows` inside the draw gap.
   */
  lemma BandShape(gaps: seq<(int, int)>, p: Profile, roundRobin: bool, allRows: seq<int>, playerNames: seq<int>, x: int)
    requires p.drawGap.Some?
    ensures Band(gaps, p, roundRobin, allRows, playerNames).Ok? ==>
      var b := Band(gaps, p, roundRobin, allRows, playerNames).value;
      var index := p.drawGap.value.gap;
      && (b.finals.Some? ==>
            && roundRobin
            && (x in b.finals.value ==> 0 <= index < |gaps| && x in playerNames && gaps[index].0 < x < gaps[index].1))
      && (b.drawRows.Some? ==>
            && !roundRobin
            && (x in b.drawRows.value ==> 0 <= index < |gaps| && x in allRows && gaps[index].0 < x < gaps[index].1))
      && (roundRobin ==> b.drawRows.None?)
  {
    if gaps != [] {
      var gap := GapAt(gaps, p.drawGap.value.gap);
      if gap.Some? {
        FilterMembers(if roundRobin then playerNames else allRows, r => gap.value.0 < r < gap.value.1, x);
      }
    }
  }

  /**
   * The finals, when defined, are a non-empty list of player name rows that
   * lie inside the draw gap of a round robin sheet and are no participant row.
   */
  lemma FinalsShape(sheet: Sheet, headerRow: Option<int>, footerRow: Option<int>, avoidRows: seq<int>,
                    columns: Columns, profile: Option<Profile>, env: Env, x: int)
    requires ParticipantRowsOf(sheet, headerRow, footerRow, avoidRows, columns, profile, env).Ok?
    requires ParticipantRowsOf(sheet, headerRow, footerRow, avoidRows, columns, profile, env).value.finals.Some?
    ensures var finals := ParticipantRowsOf(sheet, headerRow, footerRow, avoidRows, columns, profile, env).value.finals.value;
      && profile.Some? && profile.value.drawGap.Some? && columns.roundRobinResult.Some?
      && finals != []
      && (x in finals ==>
            var s := SourcesOf(sheet, headerRow, footerRow, columns, profile.value, env);
            var gaps := DrawGaps(profile.value.drawGap.value.term, env);
            var index := profile.value.drawGap.value.gap;
            && 0 <= index < |gaps| && x in s.playerNames && gaps[index].0 < x < gaps[index].1 && x !in AllRows(s))
  {
    var p := profile.value;
    var s := SourcesOf(sheet, headerRow, footerRow, columns, p, env);
    var b := Banded(p, columns, s, env).value;
    BandShape(DrawGaps(p.drawGap.value.term, env), p, columns.roundRobinResult.Some?, AllRows(s), s.playerNames, x);
    FilterMembers(b.finals.value, f => f !in AllRows(s), x);
  }

  /** Every gap of the draw term spans more than three rows. */
  lemma DrawGapsWide(term: string, env: Env)
    ensures forall i :: 0 <= i < |DrawGaps(term, env)| ==> DrawGaps(term, env)[i].1 - DrawGaps(term, env)[i].0 > 3
  {
    G.GapsAreWide([0] + Unique(Rows(env.containing(term))));
  }
}
