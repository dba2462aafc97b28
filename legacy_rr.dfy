/**
 * The round-robin branch of the legacy `tp.tournamentDraw`: every result cell
 * in a player's row, in one of the group's result columns, is a match of that
 * player against the player whose draw position the column stands for. A match
 * is kept only when both players are found and the score names a winner; it is
 * stored winner first, and a (winner, loser, score) key is stored only once.
 */
module LegacyRoundRobin {
  import opened Common
  import opened Sheets
  import opened LegacyNames
  import LS = LegacyScores

  // ---------------------------------------------------------------- findPlayerAtDrawPosition

  /**
   * The walk of `findPlayerAtDrawPosition` from `index` on, one step up or down
   * at a time, to the first player holding `goal`; None once it leaves the list.
   */
  function Seek(players: seq<LegacyPlayer>, goal: int, index: int, up: bool): (r: Option<nat>)
    ensures r.Some? ==> r.value < |players| && players[r.value].drawPosition == goal
    ensures r.Some? && up ==> 0 <= index <= r.value && forall k :: index <= k < r.value ==> players[k].drawPosition != goal
    ensures r.Some? && !up ==> r.value <= index < |players| && forall k :: r.value < k <= index ==> players[k].drawPosition != goal
    ensures r.None? && up && 0 <= index ==> forall k :: index <= k < |players| ==> players[k].drawPosition != goal
    ensures r.None? && !up && index < |players| ==> forall k :: 0 <= k <= index ==> players[k].drawPosition != goal
    decreases if up then |players| - index else index + 1
  {
    if index < 0 || index >= |players| then None
    else if players[index].drawPosition == goal then Some(index)
    else Seek(players, goal, if up then index + 1 else index - 1, up)
  }

  /** `findPlayerAtDrawPosition(players, start, goal, direction)`: the nearest player past `start` in the direction that holds `goal`. */
  method FindPlayerAtDrawPosition(players: seq<LegacyPlayer>, start: int, goal: int, direction: int) returns (r: Option<nat>)
    requires direction == 1 || direction == -1
    ensures r == Seek(players, goal, start + direction, direction == 1)
  {
    var index := start + direction;
    while 0 <= index < |players| && players[index].drawPosition != goal
      invariant Seek(players, goal, index, direction == 1) == Seek(players, goal, start + direction, direction == 1)
      decreases if direction == 1 then |players| - index else index + 1
    {
      index := index + direction;
    }
    if !(0 <= index < |players|) {
      return None;
    }
    r := Some(index);
  }

  // ---------------------------------------------------------------- the group

  /** `p.rr_result` is truthy: a number other than 0. */
  predicate InGroup(p: LegacyPlayer) {
    p.rrResult.Number? && p.rrResult.n != 0
  }

  /** `round_robin`: some player has an `rr_result` at all; false for no players. */
  predicate IsRoundRobin(players: seq<LegacyPlayer>) {
    exists i :: 0 <= i < |players| && !players[i].rrResult.Undefined?
  }

  /** `group_size`: the number of players with a truthy `rr_result`. */
  function GroupSize(players: seq<LegacyPlayer>): nat {
    |Filter(players, InGroup)|
  }

  /** `'' + p.rr_result` */
  function RrText(r: RrResult): string {
    match r
    case Undefined => "undefined"
    case Blank => ""
    case Number(n) => IntToString(n)
  }

  /** One entry of `round_data` as the round-robin branch reads it: its column and its cell references. */
  datatype RoundColumn = RoundColumn(column: char, references: seq<CellRef>)

  /** `round_data.slice(0, n)` */
  function Take<T>(s: seq<T>, n: nat): (r: seq<T>)
    ensures |r| == if n < |s| then n else |s|
    ensures forall i :: 0 <= i < |r| ==> r[i] == s[i]
  {
    if n < |s| then s[..n] else s
  }

  function ColumnsOf(rounds: seq<RoundColumn>): (r: seq<char>)
    ensures |r| == |rounds| && forall i :: 0 <= i < |rounds| ==> r[i] == rounds[i].column
  {
    if rounds == [] then [] else [rounds[0].column] + ColumnsOf(rounds[1..])
  }

  function ReferencesOf(rounds: seq<RoundColumn>): seq<CellRef> {
    if rounds == [] then [] else rounds[0].references + ReferencesOf(rounds[1..])
  }

  /** What the loop works on: the sheet, the players and their rows, the round columns, the gender and whether the draw is a qualifying one. */
  datatype Group = Group(
    sheet: Sheet,
    players: seq<LegacyPlayer>,
    playerRows: seq<int>,
    rounds: seq<RoundColumn>,
    normalize: string -> string,
    gender: string,
    qualifying: bool)

  /** The rows and the players come in step: every row has its player. */
  predicate WellFormed(g: Group) {
    |g.playerRows| <= |g.players|
  }

  /** `rr_columns`: the columns of the first `group_size` rounds. */
  function RrColumns(g: Group): seq<char> {
    ColumnsOf(Take(g.rounds, GroupSize(g.players)))
  }

  /** `result_references`: the references of the first `group_size` rounds. */
  function ResultReferences(g: Group): seq<CellRef> {
    ReferencesOf(Take(g.rounds, GroupSize(g.players)))
  }

  /** The result references in the row of player i. */
  function RowReferences(g: Group, i: nat): seq<CellRef>
    requires i < |g.playerRows|
  {
    Filter(ResultReferences(g), (ref: CellRef) => ref.row as int == g.playerRows[i])
  }

  // ---------------------------------------------------------------- one result cell

  datatype RrMatch = RrMatch(
    winnerNames: seq<string>,
    winnerDrawPosition: int,
    loserNames: seq<string>,
    loserDrawPosition: int,
    gender: string,
    round: string,
    result: string)

  /** `'RR' + (qualifying ? 'Q' : '') + rr_result` */
  function RrRound(qualifying: bool, r: RrResult): (s: string)
    ensures StartsWith(s, "RR")
  {
    var s := "RR" + (if qualifying then "Q" else "") + RrText(r);
    assert s[..2] == "RR";
    s
  }

  /** The dedupe key `${winner}${loser}${result}`, winner and loser being indices into the players. */
  function Key(w: nat, l: nat, result: string): string {
    IntToString(w) + IntToString(l) + result
  }

  /** A match read from a result cell, with its key. */
  datatype Candidate = Candidate(key: string, m: RrMatch)

  /** The opponent's draw position: the place of the cell's column among the group columns, counting from 1 (0 when absent). */
  function OpponentPosition(g: Group, ref: CellRef): int {
    IndexOf(RrColumns(g), ref.col) + 1
  }

  /** The score in the cell, `tp.normalizeScore(tp.value(sheet[reference]))`. */
  function RawResult(g: Group, ref: CellRef): string {
    g.normalize(Value(Lookup(g.sheet, ref)))
  }

  /** The opponent's index: the nearest player past i, toward the opponent's position, that holds it. */
  function Opponent(g: Group, i: nat, ref: CellRef): Option<nat>
    requires i < |g.players|
  {
    var odp := OpponentPosition(g, ref);
    var up := odp > g.players[i].drawPosition;
    Seek(g.players, odp, if up then i + 1 else i - 1, up)
  }

  /**
   * A match is stored as it was won: the winner's and the loser's names are
   * those of real players, each side's draw position is that player's own, and
   * the key is made of the two indices and the stored score.
   */
  predicate Backed(players: seq<LegacyPlayer>, c: Candidate, gender: string) {
    exists w, l :: 0 <= w < |players| && 0 <= l < |players|
      && c.key == Key(w, l, c.m.result)
      && c.m.winnerNames == [players[w].fullName] && c.m.winnerDrawPosition == players[w].drawPosition
      && c.m.loserNames == [players[l].fullName] && c.m.loserDrawPosition == players[l].drawPosition
      && c.m.gender == gender && StartsWith(c.m.round, "RR")
  }

  /**
   * The match when the tally names a winner and the opponent is found: side 1
   * (`match_winner` 1) is the opponent, and its score is turned round to read
   * winner first.
   */
  function Won(g: Group, i: nat, ref: CellRef, opponent: nat, sideOne: bool): Candidate
    requires i < |g.players| && opponent < |g.players|
  {
    var pdp := g.players[i].drawPosition;
    var odp := OpponentPosition(g, ref);
    var raw := RawResult(g, ref);
    var w := if sideOne then opponent else i;
    var l := if sideOne then i else opponent;
    var result := if sideOne then LS.ReverseScore(raw, ' ') else raw;
    var round := RrRound(g.qualifying, g.players[w].rrResult);
    var m := RrMatch([g.players[w].fullName], if sideOne then odp else pdp,
                     [g.players[l].fullName], if sideOne then pdp else odp, g.gender, round, result);
    Candidate(Key(w, l, result), m)
  }

  /** A match is backed by its players once the opponent found holds the column's position. */
  lemma WonBacked(g: Group, i: nat, ref: CellRef, opponent: nat, sideOne: bool)
    requires i < |g.players| && opponent < |g.players|
    requires g.players[opponent].drawPosition == OpponentPosition(g, ref)
    ensures Backed(g.players, Won(g, i, ref, opponent, sideOne), g.gender)
  {
    var w := if sideOne then opponent else i;
    var l := if sideOne then i else opponent;
    var c := Won(g, i, ref, opponent, sideOne);
    assert c.m.winnerNames == [g.players[w].fullName] && c.m.winnerDrawPosition == g.players[w].drawPosition;
    assert c.m.loserNames == [g.players[l].fullName] && c.m.loserDrawPosition == g.players[l].drawPosition;
    assert c.key == Key(w, l, c.m.result);
  }

  /**
   * The body of the inner `forEach` for player i and one reference: a throw
   * when the score has a set part without digits, no match when the opponent
   * is not found or the tally is even, and otherwise the match, its score
   * reversed when the opponent (side 1) won.
   */
  function ReadResult(g: Group, i: nat, ref: CellRef): (r: Result<Option<Candidate>>)
    requires i < |g.players|
    ensures r.Err? <==> LS.DetermineWinner(RawResult(g, ref)).Err?
    ensures r.Ok? ==> (r.value.Some? <==> Opponent(g, i, ref).Some? && LS.DetermineWinner(RawResult(g, ref)).value.Some?)
    ensures r.Ok? && r.value.Some? ==>
      r.value.value.m.result == if LS.DetermineWinner(RawResult(g, ref)) == Ok(Some(1)) then LS.ReverseScore(RawResult(g, ref), ' ') else RawResult(g, ref)
  {
    var opponent := Opponent(g, i, ref);
    match LS.DetermineWinner(RawResult(g, ref))
    case Err(e) => Err(e)
    case Ok(mw) =>
      if mw.None? || opponent.None? then Ok(None)
      else Ok(Some(Won(g, i, ref, opponent.value, mw == Some(1))))
  }

  /** Every match read from a cell is backed by its two players. */
  lemma ReadResultBacked(g: Group, i: nat, ref: CellRef)
    requires i < |g.players|
    ensures var r := ReadResult(g, i, ref);
      r.Ok? && r.value.Some? ==> Backed(g.players, r.value.value, g.gender)
  {
    var opponent := Opponent(g, i, ref);
    var mw := LS.DetermineWinner(RawResult(g, ref));
    if mw.Ok? && mw.value.Some? && opponent.Some? {
      WonBacked(g, i, ref, opponent.value, mw.value == Some(1));
    }
  }

  // ---------------------------------------------------------------- the loop

  /** `hash` and `matches`. */
  datatype RrState = RrState(hash: seq<string>, matches: seq<RrMatch>)

  /** `if (hash.indexOf(key) < 0) { hash.push(key); matches.push(match); }` */
  function Push(st: RrState, c: Option<Candidate>): RrState {
    if c.Some? && c.value.key !in st.hash then RrState(st.hash + [c.value.key], st.matches + [c.value.m]) else st
  }

  /** The state after the cells `refs` of player i, in order; a throw stops everything. */
  function RunCells(g: Group, i: nat, st: RrState, refs: seq<CellRef>): Result<RrState>
    requires i < |g.players|
  {
    if refs == [] then Ok(st)
    else
      match RunCells(g, i, st, refs[..|refs| - 1])
      case Err(e) => Err(e)
      case Ok(s) =>
        match ReadResult(g, i, refs[|refs| - 1])
        case Err(e) => Err(e)
        case Ok(c) => Ok(Push(s, c))
  }

  /** The state after the rows of the first n players. */
  function RunRows(g: Group, n: nat): Result<RrState>
    requires WellFormed(g) && n <= |g.playerRows|
  {
    if n == 0 then Ok(RrState([], []))
    else
      match RunRows(g, n - 1)
      case Err(e) => Err(e)
      case Ok(s) => RunCells(g, n - 1, s, RowReferences(g, n - 1))
  }

  /** The matches of the round-robin branch, or the error it throws. */
  function RoundRobinMatches(g: Group): Result<seq<RrMatch>>
    requires WellFormed(g)
  {
    match RunRows(g, |g.playerRows|)
    case Err(e) => Err(e)
    case Ok(s) => Ok(s.matches)
  }

  lemma {:induction false} RunCellsErr(g: Group, i: nat, st: RrState, refs: seq<CellRef>, k: nat, e: string)
    requires i < |g.players| && k <= |refs|
    requires RunCells(g, i, st, refs[..k]) == Err(e)
    ensures RunCells(g, i, st, refs) == Err(e)
    decreases |refs| - k
  {
    if k < |refs| {
      assert refs[..k + 1][..k] == refs[..k];
      RunCellsErr(g, i, st, refs, k + 1, e);
    } else {
      assert refs[..k] == refs;
    }
  }

  lemma RunCellsSnoc(g: Group, i: nat, st: RrState, refs: seq<CellRef>, k: nat)
    requires i < |g.players| && k < |refs|
    ensures RunCells(g, i, st, refs[..k + 1]) ==
      match RunCells(g, i, st, refs[..k])
      case Err(e) => Err(e)
      case Ok(s) => (match ReadResult(g, i, refs[k]) case Err(e) => Err(e) case Ok(c) => Ok(Push(s, c)))
  {
    assert refs[..k + 1][..k] == refs[..k];
  }

  /** The inner `forEach` over the result cells of player i. */
  method PlayerResults(g: Group, i: nat, st: RrState) returns (r: Result<RrState>)
    requires WellFormed(g) && i < |g.playerRows|
    ensures r == RunCells(g, i, st, RowReferences(g, i))
  {
    var refs := RowReferences(g, i);
    var cur := st;
    for k := 0 to |refs|
      invariant RunCells(g, i, st, refs[..k]) == Ok(cur)
    {
      RunCellsSnoc(g, i, st, refs, k);
      var c := ReadResult(g, i, refs[k]);
      if c.Err? {
        RunCellsErr(g, i, st, refs, k + 1, c.reason);
        return Err(c.reason);
      }
      cur := Push(cur, c.value);
    }
    assert refs[..|refs|] == refs;
    r := Ok(cur);
  }

  lemma {:induction false} RunRowsErr(g: Group, n: nat, e: string)
    requires WellFormed(g) && n <= |g.playerRows|
    requires RunRows(g, n) == Err(e)
    ensures RunRows(g, |g.playerRows|) == Err(e)
    decreases |g.playerRows| - n
  {
    if n < |g.playerRows| {
      RunRowsErr(g, n + 1, e);
    }
  }

  /** One turn of the outer loop: the results of player n on top of the run so far. */
  method RowStep(g: Group, n: nat, s: RrState) returns (r: Result<RrState>)
    requires WellFormed(g) && n < |g.playerRows| && RunRows(g, n) == Ok(s)
    ensures r == RunRows(g, n + 1)
  {
    r := PlayerResults(g, n, s);
  }

  /** The outer `player_rows.forEach`. */
  method RoundRobinLoop(g: Group) returns (r: Result<seq<RrMatch>>)
    requires WellFormed(g)
    ensures r == RoundRobinMatches(g)
  {
    var cur := RrState([], []);
    for i := 0 to |g.playerRows|
      invariant RunRows(g, i) == Ok(cur)
    {
      var next := RowStep(g, i, cur);
      if next.Err? {
        RunRowsErr(g, i + 1, next.reason);
        return Err(next.reason);
      }
      cur := next.value;
    }
    r := Ok(cur.matches);
  }

  // ---------------------------------------------------------------- what the loop keeps

  /** Every stored match has its own key, no key twice, and every match is backed by its players. */
  predicate Keyed(players: seq<LegacyPlayer>, gender: string, st: RrState) {
    && |st.hash| == |st.matches|
    && NoDup(st.hash)
    && forall k :: 0 <= k < |st.matches| ==> Backed(players, Candidate(st.hash[k], st.matches[k]), gender)
  }

  /** A run that does not throw ends in a keyed state. */
  predicate KeyedRun(players: seq<LegacyPlayer>, gender: string, r: Result<RrState>) {
    r.Ok? ==> Keyed(players, gender, r.value)
  }

  lemma PushKeyed(players: seq<LegacyPlayer>, gender: string, st: RrState, c: Option<Candidate>)
    requires Keyed(players, gender, st)
    requires c.Some? ==> Backed(players, c.value, gender)
    ensures Keyed(players, gender, Push(st, c))
  {
    if c.Some? && c.value.key !in st.hash {
      var next := Push(st, c);
      assert forall k :: 0 <= k < |st.matches| ==> next.hash[k] == st.hash[k] && next.matches[k] == st.matches[k];
      assert next.hash[|st.hash|] == c.value.key && next.matches[|st.matches|] == c.value.m;
    }
  }

  lemma {:induction false} RunCellsKeyed(g: Group, i: nat, st: RrState, refs: seq<CellRef>)
    requires i < |g.players| && Keyed(g.players, g.gender, st)
    ensures KeyedRun(g.players, g.gender, RunCells(g, i, st, refs))
  {
    if refs != [] {
      RunCellsKeyed(g, i, st, refs[..|refs| - 1]);
      var s := RunCells(g, i, st, refs[..|refs| - 1]);
      if s.Ok? {
        var c := ReadResult(g, i, refs[|refs| - 1]);
        if c.Ok? {
          ReadResultBacked(g, i, refs[|refs| - 1]);
          PushKeyed(g.players, g.gender, s.value, c.value);
        }
      }
    }
  }

  lemma {:induction false} RunRowsKeyed(g: Group, n: nat)
    requires WellFormed(g) && n <= |g.playerRows|
    ensures KeyedRun(g.players, g.gender, RunRows(g, n))
  {
    if n == 0 {
      assert RunRows(g, 0) == Ok(RrState([], []));
    } else {
      var s := RunRows(g, n - 1);
      if s.Ok? {
        assert Keyed(g.players, g.gender, s.value) by {
          RunRowsKeyed(g, n - 1);
          assert KeyedRun(g.players, g.gender, s);
        }
        assert RunRows(g, n) == RunCells(g, n - 1, s.value, RowReferences(g, n - 1));
        RunCellsKeyed(g, n - 1, s.value, RowReferences(g, n - 1));
      } else {
        assert RunRows(g, n) == Err(s.reason);
      }
    }
  }

  /**
   * The matches of a round-robin sheet: keyed one to one by (winner, loser,
   * score) with no key twice, each match naming two real players with their
   * own draw positions, the sheet's gender and an "RR" round.
   */
  lemma RoundRobinMatchesKeyed(g: Group)
    requires WellFormed(g) && RunRows(g, |g.playerRows|).Ok?
    ensures Keyed(g.players, g.gender, RunRows(g, |g.playerRows|).value)
  {
    RunRowsKeyed(g, |g.playerRows|);
  }
}
