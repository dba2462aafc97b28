/**
 * `constructKnockOut`: the rounds of a knockout draw from its round columns.
 * Half the number of distinct draw positions must be a power of two. Every
 * column gives one round and then the rounds embedded in it, each of them
 * halving the number of matchUps expected. The rounds are then turned to
 * start from the final, the entry round goes last, and the decided matchUps
 * are listed with the players of their winners.
 */
module KnockOutConstruction {
  import opened Common
  import opened Sheets
  import opened Slots

  /** A player as this step reads it: its draw position, and its name, passed on. */
  datatype Player = Player(drawPosition: int, fullName: string)

  /**
   * A matchUp as the column reading gives it: the draw positions and cell
   * rows of its winners, `winners`, `losers` and `result` when present, and
   * `players` for the entry round's `{players: [dp]}`.
   */
  datatype MatchUp = MatchUp(
    drawPositions: seq<int>,
    cellRows: seq<int>,
    winners: Option<seq<int>>,
    losers: Option<seq<int>>,
    result: Option<string>,
    players: Option<seq<int>>)

  /** What one column tells the reading of the next: `expectOutcomes`, `expectedRowRanges` and `expectedGroupings`. */
  datatype Expectation = Expectation(outcomes: bool, rowRanges: seq<seq<int>>, groupings: seq<seq<int>>)

  /** What `getColumnMatchUps` returns for a column. */
  datatype ColumnOutput = ColumnOutput(roundMatchUps: seq<MatchUp>, embeddedMatchUps: seq<MatchUp>, allOutcomes: bool)

  /**
   * The helpers outside this model: `getColumnMatchUps` (with the sheet, the
   * players and the match outcomes bound), `getExpectedRoundMatchUps` and
   * `constructMatches` (with the players bound).
   */
  datatype Helpers = Helpers(
    columnMatchUps: (seq<CellRef>, bool, Expectation) -> ColumnOutput,
    expectedRound: (seq<MatchUp>, seq<seq<int>>, seq<seq<int>>) -> seq<MatchUp>,
    constructMatches: (seq<seq<MatchUp>>, bool) -> seq<seq<MatchUp>>)

  // ---------------------------------------------------------------- draw positions

  /** `players.map(p => p.drawPosition)` */
  function DrawPositions(players: seq<Player>): (r: seq<int>)
    ensures |r| == |players| && forall i :: 0 <= i < |players| ==> r[i] == players[i].drawPosition
  {
    if players == [] then [] else [players[0].drawPosition] + DrawPositions(players[1..])
  }

  /** `isDoubles`: the most frequent draw position occurs exactly twice. */
  predicate IsDoubles(players: seq<Player>) {
    MaxOccurrence(DrawPositions(players)) == 2
  }

  /** A draw is doubles exactly when some position is held twice and none more often. */
  lemma IsDoublesCases(players: seq<Player>)
    ensures var dps := DrawPositions(players);
      IsDoubles(players) <==>
        (exists dp :: dp in dps && Count(dps, dp) == 2) && forall dp :: dp in dps ==> Count(dps, dp) <= 2
  {
    var dps := DrawPositions(players);
    if dps == [] {
      assert MaxCountOver(dps, dps) == 0;
    }
  }

  /** The guard on `isPowerOf2(drawPositions.length / 2)`: the half is a whole power of two. */
  predicate ValidSize(dps: seq<int>) {
    |dps| % 2 == 0 && IsPowerOf2(|dps| / 2)
  }

  // ---------------------------------------------------------------- the loop over the round columns

  /** `[].concat(...ms.map(m => m.drawPositions))` */
  function WinnerPositions(ms: seq<MatchUp>): seq<int> {
    if ms == [] then [] else ms[0].drawPositions + WinnerPositions(ms[1..])
  }

  /** `[].concat(...ms.map(m => m.cellRow))` */
  function WinnerRows(ms: seq<MatchUp>): seq<int> {
    if ms == [] then [] else ms[0].cellRows + WinnerRows(ms[1..])
  }

  /** The variables the loop updates: `rounds`, `expectedMatchUps` and the expectations. */
  datatype Build = Build(rounds: seq<seq<MatchUp>>, expectedMatchUps: real, expecting: Expectation)

  /** Before the first column: no round, half the distinct positions expected as matchUps, grouped in pairs. */
  function Start(dps: seq<int>): Build {
    Build([], (|dps| as real) / 2.0, Expectation(false, [], ChunkPairs(dps)))
  }

  /** After a round: half as many matchUps expected, grouped as the round's winners pair up. */
  function Regroup(b: Build, ms: seq<MatchUp>): Build {
    Build(b.rounds, b.expectedMatchUps / 2.0, Expectation(b.expecting.outcomes, ChunkPairs(WinnerRows(ms)), ChunkPairs(WinnerPositions(ms))))
  }

  /** One turn of the `generateRange(0, embeddedMatchUpsCount)` loop: the embedded round is pushed only when it is not empty. */
  function EmbeddedTurn(before: Build, h: Helpers, embedded: seq<MatchUp>): Build {
    var ms := h.expectedRound(embedded, before.expecting.rowRanges, before.expecting.groupings);
    var next := Regroup(before, ms);
    if ms != [] then next.(rounds := next.rounds + [ms]) else next
  }

  /** The first n turns of that loop. */
  function EmbeddedTurns(b: Build, h: Helpers, embedded: seq<MatchUp>, n: nat): Build {
    if n == 0 then b else EmbeddedTurn(EmbeddedTurns(b, h, embedded, n - 1), h, embedded)
  }

  /** A column's own round: pushed, with the expectations following it. */
  function ColumnRound(b: Build, out: ColumnOutput): Build {
    var regrouped := Regroup(b.(rounds := b.rounds + [out.roundMatchUps]), out.roundMatchUps);
    regrouped.(expecting := regrouped.expecting.(outcomes := b.expecting.outcomes || out.allOutcomes))
  }

  /** One turn for a column: its round, then its embedded rounds. */
  function ColumnTurn(b: Build, h: Helpers, isDoubles: bool, column: seq<CellRef>): Build {
    var out := h.columnMatchUps(column, isDoubles, b.expecting);
    EmbeddedTurns(ColumnRound(b, out), h, out.embeddedMatchUps, |out.embeddedMatchUps|)
  }

  /** `round_data.forEach(...)`, column after column. */
  function Columns(b: Build, h: Helpers, isDoubles: bool, roundData: seq<seq<CellRef>>): Build {
    if roundData == [] then b
    else ColumnTurn(Columns(b, h, isDoubles, roundData[..|roundData| - 1]), h, isDoubles, roundData[|roundData| - 1])
  }

  /** The body of the inner loop, on the variables it updates. */
  method EmbeddedStep(b: Build, h: Helpers, embedded: seq<MatchUp>) returns (r: Build)
    ensures r == EmbeddedTurn(b, h, embedded)
  {
    var rounds := b.rounds;
    var roundMatchUps := h.expectedRound(embedded, b.expecting.rowRanges, b.expecting.groupings);
    var winnerDrawPositions := WinnerPositions(roundMatchUps);
    var winnerRowNumbers := WinnerRows(roundMatchUps);
    var expectedMatchUps := b.expectedMatchUps / 2.0;
    var expectedGroupings := ChunkPairs(winnerDrawPositions);
    var expectedRowRanges := ChunkPairs(winnerRowNumbers);
    if roundMatchUps != [] {
      rounds := rounds + [roundMatchUps];
    }
    r := Build(rounds, expectedMatchUps, Expectation(b.expecting.outcomes, expectedRowRanges, expectedGroupings));
  }

  /** The inner loop over a column's embedded matchUps. */
  method EmbeddedLoop(b: Build, h: Helpers, embedded: seq<MatchUp>) returns (r: Build)
    ensures r == EmbeddedTurns(b, h, embedded, |embedded|)
  {
    r := b;
    for k := 0 to |embedded|
      invariant r == EmbeddedTurns(b, h, embedded, k)
    {
      r := EmbeddedStep(r, h, embedded);
    }
  }

  /** A column's own round, on the variables the loop updates. */
  method ColumnStep(b: Build, out: ColumnOutput) returns (r: Build)
    ensures r == ColumnRound(b, out)
  {
    var rounds := b.rounds + [out.roundMatchUps];
    var winnerDrawPositions := WinnerPositions(out.roundMatchUps);
    var winnerRowNumbers := WinnerRows(out.roundMatchUps);
    var expectedMatchUps := b.expectedMatchUps / 2.0;
    var expectedGroupings := ChunkPairs(winnerDrawPositions);
    var expectedRowRanges := ChunkPairs(winnerRowNumbers);
    var expectOutcomes := b.expecting.outcomes || out.allOutcomes;
    r := Build(rounds, expectedMatchUps, Expectation(expectOutcomes, expectedRowRanges, expectedGroupings));
  }

  /** The outer loop over the round columns. */
  method RoundLoop(dps: seq<int>, h: Helpers, isDoubles: bool, roundData: seq<seq<CellRef>>) returns (r: Build)
    ensures r == Columns(Start(dps), h, isDoubles, roundData)
  {
    r := Start(dps);
    for i := 0 to |roundData|
      invariant r == Columns(Start(dps), h, isDoubles, roundData[..i])
    {
      assert roundData[..i + 1][..i] == roundData[..i];
      var out := h.columnMatchUps(roundData[i], isDoubles, r.expecting);
      var next := ColumnStep(r, out);
      r := EmbeddedLoop(next, h, out.embeddedMatchUps);
    }
    assert roundData[..|roundData|] == roundData;
  }

  /** x halved n times. */
  function Halve(x: real, n: nat): real {
    if n == 0 then x else Halve(x, n - 1) / 2.0
  }

  /** Halving n times is dividing by 2^n. */
  lemma {:induction false} HalvePow2(x: real, n: nat)
    ensures Halve(x, n) * (Pow2(n) as real) == x
  {
    if n > 0 {
      HalvePow2(x, n - 1);
      var y := Halve(x, n - 1);
      var p := Pow2(n - 1) as real;
      assert Pow2(n) as real == 2.0 * p;
      assert (y / 2.0) * (2.0 * p) == y * p;
    }
  }

  /** Halving once more first is halving once more. */
  lemma {:induction false} HalveShift(x: real, n: nat)
    ensures Halve(x / 2.0, n) == Halve(x, n + 1)
  {
    if n > 0 {
      HalveShift(x, n - 1);
    }
  }

  /** The embedded turns keep the rounds already there and push only non-empty rounds, at most one per turn. */
  lemma {:induction false} EmbeddedTurnsRounds(b: Build, h: Helpers, embedded: seq<MatchUp>, n: nat)
    ensures var e := EmbeddedTurns(b, h, embedded, n);
      && |b.rounds| <= |e.rounds| <= |b.rounds| + n
      && e.rounds[..|b.rounds|] == b.rounds
      && (forall k :: |b.rounds| <= k < |e.rounds| ==> e.rounds[k] != [])
  {
    if n > 0 {
      EmbeddedTurnsRounds(b, h, embedded, n - 1);
      var before := EmbeddedTurns(b, h, embedded, n - 1);
      var e := EmbeddedTurns(b, h, embedded, n);
      assert e.rounds[..|before.rounds|] == before.rounds;
    }
  }

  /** Each embedded turn halves the expected matchUps and leaves `expectOutcomes` alone. */
  lemma {:induction false} EmbeddedTurnsExpected(b: Build, h: Helpers, embedded: seq<MatchUp>, n: nat)
    ensures var e := EmbeddedTurns(b, h, embedded, n);
      e.expectedMatchUps == Halve(b.expectedMatchUps, n) && e.expecting.outcomes == b.expecting.outcomes
  {
    if n > 0 {
      EmbeddedTurnsExpected(b, h, embedded, n - 1);
    }
  }

  /**
   * A column turn pushes the column's round right after the rounds already
   * there, then only non-empty embedded rounds; the expectation is halved
   * once for the column and once per embedded matchUp, and `expectOutcomes`
   * becomes true once a column has all its outcomes.
   */
  lemma ColumnTurnShape(b: Build, h: Helpers, isDoubles: bool, column: seq<CellRef>)
    ensures var out := h.columnMatchUps(column, isDoubles, b.expecting);
      var r := ColumnTurn(b, h, isDoubles, column);
      && |b.rounds| < |r.rounds| <= |b.rounds| + 1 + |out.embeddedMatchUps|
      && r.rounds[..|b.rounds|] == b.rounds
      && r.rounds[|b.rounds|] == out.roundMatchUps
      && (forall k :: |b.rounds| < k < |r.rounds| ==> r.rounds[k] != [])
      && r.expectedMatchUps == Halve(b.expectedMatchUps, 1 + |out.embeddedMatchUps|)
      && r.expecting.outcomes == (b.expecting.outcomes || out.allOutcomes)
  {
    var out := h.columnMatchUps(column, isDoubles, b.expecting);
    var next := ColumnRound(b, out);
    var n := |out.embeddedMatchUps|;
    EmbeddedTurnsRounds(next, h, out.embeddedMatchUps, n);
    EmbeddedTurnsExpected(next, h, out.embeddedMatchUps, n);
    HalveShift(b.expectedMatchUps, n);
    var r := ColumnTurn(b, h, isDoubles, column);
    assert r.rounds[..|b.rounds|] == next.rounds[..|b.rounds|];
  }

  /** Every column gives at least one round, so the rounds are empty only when there is no column. */
  lemma {:induction false} ColumnsCount(b: Build, h: Helpers, isDoubles: bool, roundData: seq<seq<CellRef>>)
    ensures |Columns(b, h, isDoubles, roundData).rounds| >= |b.rounds| + |roundData|
    ensures roundData == [] ==> Columns(b, h, isDoubles, roundData) == b
  {
    if roundData != [] {
      var init := roundData[..|roundData| - 1];
      ColumnsCount(b, h, isDoubles, init);
      ColumnTurnShape(Columns(b, h, isDoubles, init), h, isDoubles, roundData[|roundData| - 1]);
    }
  }

  // ---------------------------------------------------------------- addEntryRound

  /** The winners the matchUps of a round name, those without `winners` left out. */
  function RoundWinners(ms: seq<MatchUp>): seq<int> {
    if ms == [] then [] else (if ms[0].winners.Some? then ms[0].winners.value else []) + RoundWinners(ms[1..])
  }

  function AllRoundWinners(rounds: seq<seq<MatchUp>>): seq<int> {
    if rounds == [] then [] else RoundWinners(rounds[0]) + AllRoundWinners(rounds[1..])
  }

  /** A position is a winner in a round exactly when one of the round's matchUps names it among its winners. */
  lemma {:induction false} RoundWinnersMembers(ms: seq<MatchUp>, dp: int)
    ensures dp in RoundWinners(ms) <==> exists j :: 0 <= j < |ms| && ms[j].winners.Some? && dp in ms[j].winners.value
  {
    if ms != [] {
      RoundWinnersMembers(ms[1..], dp);
      if dp in RoundWinners(ms[1..]) {
        var j :| 0 <= j < |ms[1..]| && ms[1..][j].winners.Some? && dp in ms[1..][j].winners.value;
        assert ms[j + 1] == ms[1..][j];
      }
      if exists j :: 0 <= j < |ms| && ms[j].winners.Some? && dp in ms[j].winners.value {
        var j :| 0 <= j < |ms| && ms[j].winners.Some? && dp in ms[j].winners.value;
        if j > 0 { assert ms[1..][j - 1] == ms[j]; }
      }
    }
  }

  lemma {:induction false} AllRoundWinnersMembers(rounds: seq<seq<MatchUp>>, dp: int)
    ensures dp in AllRoundWinners(rounds) <==> exists i :: 0 <= i < |rounds| && dp in RoundWinners(rounds[i])
  {
    if rounds != [] {
      AllRoundWinnersMembers(rounds[1..], dp);
      if dp in AllRoundWinners(rounds[1..]) {
        var i :| 0 <= i < |rounds[1..]| && dp in RoundWinners(rounds[1..][i]);
        assert rounds[i + 1] == rounds[1..][i];
      }
      if exists i :: 0 <= i < |rounds| && dp in RoundWinners(rounds[i]) {
        var i :| 0 <= i < |rounds| && dp in RoundWinners(rounds[i]);
        if i > 0 { assert rounds[1..][i - 1] == rounds[i]; }
      }
    }
  }

  /** `notWinner(drawPosition)`: the position is named as a winner in no matchUp of any round. */
  predicate NotWinner(rounds: seq<seq<MatchUp>>, dp: int) {
    dp !in Unique(AllRoundWinners(rounds))
  }

  /** The entry round's positions: those of players that won nothing, the last occurrence of each kept. */
  function EntryPositions(rounds: seq<seq<MatchUp>>, players: seq<Player>): seq<int> {
    Unique(Filter(DrawPositions(players), dp => NotWinner(rounds, dp)))
  }

  function EntryMatchUp(dp: int): MatchUp {
    MatchUp([], [], None, None, None, Some([dp]))
  }

  function EntryMatchUps(dps: seq<int>): (r: seq<MatchUp>)
    ensures |r| == |dps| && forall k :: 0 <= k < |dps| ==> r[k] == EntryMatchUp(dps[k])
  {
    if dps == [] then [] else [EntryMatchUp(dps[0])] + EntryMatchUps(dps[1..])
  }

  /** `addEntryRound(rounds, players)` */
  function AddEntryRound(rounds: seq<seq<MatchUp>>, players: seq<Player>): seq<seq<MatchUp>> {
    rounds + [EntryMatchUps(EntryPositions(rounds, players))]
  }

  /**
   * `addEntryRound` keeps the rounds and appends one `{players: [dp]}` per
   * distinct position of a player that is not among any round's winners.
   */
  lemma AddEntryRoundShape(rounds: seq<seq<MatchUp>>, players: seq<Player>, dp: int)
    ensures var r := AddEntryRound(rounds, players);
      var entry := EntryPositions(rounds, players);
      && |r| == |rounds| + 1 && r[..|rounds|] == rounds
      && r[|rounds|] == EntryMatchUps(entry)
      && NoDup(entry)
      && (dp in entry <==>
            (exists i :: 0 <= i < |players| && players[i].drawPosition == dp) &&
            forall i, j :: 0 <= i < |rounds| && 0 <= j < |rounds[i]| && rounds[i][j].winners.Some? ==> dp !in rounds[i][j].winners.value)
  {
    var r := AddEntryRound(rounds, players);
    assert r[..|rounds|] == rounds;
    var notWinner := (d: int) => NotWinner(rounds, d);
    var kept := Filter(DrawPositions(players), notWinner);
    FilterMembers(DrawPositions(players), notWinner, dp);
    assert dp in EntryPositions(rounds, players) <==> dp in kept;
    AllRoundWinnersMembers(rounds, dp);
    assert NotWinner(rounds, dp) <==> dp !in AllRoundWinners(rounds);
    forall i | 0 <= i < |rounds| {
      RoundWinnersMembers(rounds[i], dp);
    }
    if dp in DrawPositions(players) {
      var i :| 0 <= i < |players| && DrawPositions(players)[i] == dp;
    }
  }

  // ---------------------------------------------------------------- the decided matchUps

  /** `f.losers && f.result`: losers present and a non-empty result. */
  predicate Decided(m: MatchUp) {
    m.losers.Some? && m.result.Some? && m.result.value != ""
  }

  /** A decided matchUp with its winners' players and the draw's gender. */
  datatype Named = Named(m: MatchUp, winners: seq<Player>, gender: Option<string>)

  /** The players holding a position. */
  function Holding(players: seq<Player>, dp: int): seq<Player> {
    Filter(players, (p: Player) => p.drawPosition == dp)
  }

  /**
   * `match.winners = players.filter(f => +f.drawPosition === +match.winners[0])`
   * and the gender when there is one; an empty `winners` list gets no player.
   * A matchUp without `winners` is never named: the naming throws on it first.
   */
  function NameOne(m: MatchUp, players: seq<Player>, gender: string): Named {
    var w := if m.winners.Some? then m.winners.value else [];
    Named(m, if w == [] then [] else Holding(players, w[0]), if gender != "" then Some(gender) else None)
  }

  /** Naming every decided matchUp; one without `winners` makes the script throw. */
  function NameMatchUps(ms: seq<MatchUp>, players: seq<Player>, gender: string): (r: Result<seq<Named>>)
    ensures r.Err? <==> exists k :: 0 <= k < |ms| && ms[k].winners.None?
    ensures r.Ok? ==> |r.value| == |ms| && forall k :: 0 <= k < |ms| ==> r.value[k] == NameOne(ms[k], players, gender)
  {
    if exists k :: 0 <= k < |ms| && ms[k].winners.None? then Err("TypeError: Cannot read properties of undefined (reading '0')")
    else Ok(seq(|ms|, k requires 0 <= k < |ms| => NameOne(ms[k], players, gender)))
  }

  // ---------------------------------------------------------------- the rounds after the naming

  /**
   * A matchUp of the returned rounds. The naming changes the decided matchUps
   * in place, so in the rounds a decided matchUp is the named object itself.
   */
  type RoundMatchUp = Slot<MatchUp, Named>

  /** The naming applied to each decided matchUp. */
  function Naming(players: seq<Player>, gender: string): MatchUp -> Named {
    m => NameOne(m, players, gender)
  }

  /** The matchUp a named one was made from. */
  function Built(n: Named): MatchUp {
    n.m
  }

  /** Naming a matchUp keeps it underneath. */
  lemma NamingKeeps(players: seq<Player>, gender: string)
    ensures Keeps(Decided, Naming(players, gender), Built)
  {
  }

  // ---------------------------------------------------------------- constructKnockOut

  /** The draw: its rounds, from the final to the entry round, and its decided matchUps. */
  datatype KnockOut = KnockOut(rounds: seq<seq<RoundMatchUp>>, matchUps: seq<Named>)

  /** The rounds handed to `constructMatches`: the columns' rounds from the last one back, then the entry round. */
  function Arranged(built: seq<seq<MatchUp>>, players: seq<Player>): seq<seq<MatchUp>> {
    AddEntryRound(Reverse(built), players)
  }

  /** `constructKnockOut`, or the error it throws while naming the winners. */
  function ConstructKnockOut(players: seq<Player>, gender: string, roundData: seq<seq<CellRef>>, h: Helpers): Result<KnockOut> {
    var dps := Unique(DrawPositions(players));
    if !ValidSize(dps) then Ok(KnockOut([], []))
    else
      var built := Columns(Start(dps), h, IsDoubles(players), roundData);
      if built.rounds == [] then Ok(KnockOut([], []))
      else
        var rounds := h.constructMatches(Arranged(built.rounds, players), IsDoubles(players));
        match NameMatchUps(Filter(Flatten(rounds), Decided), players, gender)
        case Err(e) => Err(e)
        case Ok(named) => Ok(KnockOut(PlaceRounds(rounds, Decided, Naming(players, gender)), named))
  }

  /** `constructKnockOut` as the script runs it, with the loop over the round columns. */
  method Construct(players: seq<Player>, gender: string, roundData: seq<seq<CellRef>>, h: Helpers) returns (r: Result<KnockOut>)
    ensures r == ConstructKnockOut(players, gender, roundData, h)
  {
    var dps := Unique(DrawPositions(players));
    var isDoubles := MaxOccurrence(DrawPositions(players)) == 2;
    if !ValidSize(dps) {
      return Ok(KnockOut([], []));
    }
    var built := RoundLoop(dps, h, isDoubles, roundData);
    if built.rounds == [] {
      return Ok(KnockOut([], []));
    }
    var rounds := Reverse(built.rounds);
    rounds := AddEntryRound(rounds, players);
    rounds := h.constructMatches(rounds, isDoubles);
    var named := NameMatchUps(Filter(Flatten(rounds), Decided), players, gender);
    if named.Err? {
      return Err(named.reason);
    }
    r := Ok(KnockOut(PlaceRounds(rounds, Decided, Naming(players, gender)), named.value));
  }

  /** A draw whose distinct positions are not twice a power of two gives no round and no matchUp. */
  lemma InvalidSizeEmpty(players: seq<Player>, gender: string, roundData: seq<seq<CellRef>>, h: Helpers)
    requires !ValidSize(Unique(DrawPositions(players)))
    ensures ConstructKnockOut(players, gender, roundData, h) == Ok(KnockOut([], []))
  {
  }

  /** Six entrants: three expected matchUps is no power of two, so the draw is empty. */
  lemma SixEntrantsEmpty(gender: string, roundData: seq<seq<CellRef>>, h: Helpers)
    ensures var players := seq(6, i => Player(i + 1, ""));
      ConstructKnockOut(players, gender, roundData, h) == Ok(KnockOut([], []))
  {
    var players := seq(6, i => Player(i + 1, ""));
    var dps := DrawPositions(players);
    assert dps == [1, 2, 3, 4, 5, 6];
    assert NoDup(dps);
    UniqueOfDistinct(dps);
    assert !IsPowerOf2(3);
  }

  lemma {:induction false} UniqueOfDistinct(s: seq<int>)
    requires NoDup(s)
    ensures Unique(s) == s
  {
    if s != [] {
      assert s[0] !in s[1..];
      UniqueOfDistinct(s[1..]);
      assert s == [s[0]] + s[1..];
    }
  }

  /** No round column: no round and no matchUp. */
  lemma NoColumnsEmpty(players: seq<Player>, gender: string, h: Helpers)
    ensures ConstructKnockOut(players, gender, [], h) == Ok(KnockOut([], []))
  {
  }

  /** The rounds handed to `constructMatches` are the columns' rounds from the last one back, then the entry round. */
  lemma ArrangedShape(built: seq<seq<MatchUp>>, players: seq<Player>)
    ensures var a := Arranged(built, players);
      && |a| == |built| + 1
      && (forall i :: 0 <= i < |built| ==> a[i] == built[|built| - 1 - i])
      && a[|built|] == EntryMatchUps(EntryPositions(Reverse(built), players))
  {
    var rev := Reverse(built);
    var a := Arranged(built, players);
    AddEntryRoundShape(rev, players, 0);
    assert a[..|rev|] == rev;
    forall i | 0 <= i < |built| ensures a[i] == built[|built| - 1 - i] {
      assert a[i] == a[..|rev|][i];
    }
  }

  /** `n` is `m` with the players holding its first winner's position, and the gender when there is one. */
  predicate NamedAfter(n: Named, m: MatchUp, players: seq<Player>, gender: string) {
    && n.m == m
    && n.winners == (if m.winners.None? || m.winners.value == [] then [] else Holding(players, m.winners.value[0]))
    && n.gender == (if gender != "" then Some(gender) else None)
  }

  /** The draw the naming leaves, from the rounds `constructMatches` built and the named decided matchUps. */
  lemma {:induction false} PlacedShape(rounds: seq<seq<MatchUp>>, players: seq<Player>, gender: string, named: seq<Named>)
    requires NameMatchUps(Filter(Flatten(rounds), Decided), players, gender) == Ok(named)
    ensures var placed := PlaceRounds(rounds, Decided, Naming(players, gender));
      var decided := Filter(BaseAll(Flatten(placed), Built), Decided);
      && |named| == |decided|
      && (forall k :: 0 <= k < |decided| ==> decided[k].winners.Some? && NamedAfter(named[k], decided[k], players, gender))
      && named == NamedIn(Flatten(placed))
  {
    var decided := Filter(Flatten(rounds), Decided);
    NamingKeeps(players, gender);
    FlattenPlaced(rounds, Decided, Naming(players, gender));
    BasePlaced(Flatten(rounds), Decided, Naming(players, gender), Built);
    NamedInPlaced(Flatten(rounds), Decided, Naming(players, gender));
    forall k | 0 <= k < |decided| ensures decided[k].winners.Some? {
      assert decided[k] in Filter(Flatten(rounds), Decided);
    }
  }

  /**
   * The matchUps are, in order, the decided matchUps of the rounds, each with
   * the players holding its first winner's position and the gender when
   * there is one; in the rounds, the decided matchUps are these named
   * matchUps themselves. No round means no matchUp.
   */
  lemma KnockOutMatchUps(players: seq<Player>, gender: string, roundData: seq<seq<CellRef>>, h: Helpers)
    requires ConstructKnockOut(players, gender, roundData, h).Ok?
    ensures var d := ConstructKnockOut(players, gender, roundData, h).value;
      var decided := Filter(BaseAll(Flatten(d.rounds), Built), Decided);
      && |d.matchUps| == |decided|
      && (forall k :: 0 <= k < |decided| ==> decided[k].winners.Some? && NamedAfter(d.matchUps[k], decided[k], players, gender))
      && (d.rounds == [] ==> d.matchUps == [])
    ensures var d := ConstructKnockOut(players, gender, roundData, h).value;
      && d.matchUps == NamedIn(Flatten(d.rounds))
      && forall i, j :: 0 <= i < |d.rounds| && 0 <= j < |d.rounds[i]| ==> (d.rounds[i][j].AsNamed? <==> Decided(Base(d.rounds[i][j], Built)))
  {
    var dps := Unique(DrawPositions(players));
    if ValidSize(dps) {
      var built := Columns(Start(dps), h, IsDoubles(players), roundData);
      if built.rounds != [] {
        var rounds := h.constructMatches(Arranged(built.rounds, players), IsDoubles(players));
        var named := NameMatchUps(Filter(Flatten(rounds), Decided), players, gender).value;
        assert ConstructKnockOut(players, gender, roundData, h).value == KnockOut(PlaceRounds(rounds, Decided, Naming(players, gender)), named);
        PlacedShape(rounds, players, gender, named);
        NamingKeeps(players, gender);
        PlacedNamed(rounds, Decided, Naming(players, gender), Built);
      }
    }
  }
}
