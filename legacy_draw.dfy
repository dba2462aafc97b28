/**
 * `tp.tournamentDraw` of the legacy parser: the sheet's gender and kind, and
 * the knockout branch that turns the round columns into rounds ordered from
 * the final, with the entry round last, and into the list of played matches.
 * The round-robin branch is in `LegacyRoundRobin`.
 */
module LegacyDraw {
  import opened Common
  import opened Sheets
  import opened LegacyNames
  import opened Slots
  import CS = ColumnScan
  import LR = LegacyRounds

  // ---------------------------------------------------------------- gender and kind

  /** The gender a sheet name's first two letters give: "M" for BS, BD, MS and MD, "W" for GS, GD, WD and WS. */
  function NameGender(sheetName: string): string {
    if StartsWith(sheetName, "BS") || StartsWith(sheetName, "BD") || StartsWith(sheetName, "MS") || StartsWith(sheetName, "MD") then "M"
    else if StartsWith(sheetName, "GS") || StartsWith(sheetName, "GD") || StartsWith(sheetName, "WD") || StartsWith(sheetName, "WS") then "W"
    else ""
  }

  /**
   * `gender`: from the sheet name, overridden by the (lower-cased) title in A2,
   * "djevojčice" (girls) giving "W" and "dječaci" (boys), tested last, "M".
   */
  function SheetGender(sheetName: string, a2: string): string {
    var lower := ToLower(a2);
    if Contains(lower, "dječaci") then "M"
    else if Contains(lower, "djevojčice") then "W"
    else NameGender(sheetName)
  }

  /** The gender is one of "M", "W" and none, "M" exactly for a boys' title or a boys' sheet name not overridden by a girls' title. */
  lemma SheetGenderCases(sheetName: string, a2: string)
    ensures SheetGender(sheetName, a2) in {"M", "W", ""}
    ensures SheetGender(sheetName, a2) == "M" <==>
      Contains(ToLower(a2), "dječaci") ||
      (!Contains(ToLower(a2), "djevojčice") && exists i :: 0 <= i < 4 && StartsWith(sheetName, ["BS", "BD", "MS", "MD"][i]))
    ensures SheetGender(sheetName, a2) == "W" <==>
      !Contains(ToLower(a2), "dječaci") &&
      (Contains(ToLower(a2), "djevojčice") || (NameGender(sheetName) == "W"))
  {
    if StartsWith(sheetName, "BS") { assert ["BS", "BD", "MS", "MD"][0] == "BS"; }
    if StartsWith(sheetName, "BD") { assert ["BS", "BD", "MS", "MD"][1] == "BD"; }
    if StartsWith(sheetName, "MS") { assert ["BS", "BD", "MS", "MD"][2] == "MS"; }
    if StartsWith(sheetName, "MD") { assert ["BS", "BD", "MS", "MD"][3] == "MD"; }
  }

  /** `qualifying`: the sheet name holds a "Q". */
  predicate Qualifying(sheetName: string) {
    'Q' in sheetName
  }

  /** `draw.rank`: the first number in Q5 when its text holds "rang" and a digit. */
  function RankOverride(q5: string): (r: Option<nat>)
    ensures r.Some? <==> Contains(q5, "rang") && HasDigit(q5)
  {
    if Contains(q5, "rang") && HasDigit(q5) then Some(DigitsValue(FirstDigitRun(q5).value)) else None
  }

  // ---------------------------------------------------------------- the round columns

  /** The cells of a round column as the scan reads them: each reference's row and `tp.value` of its cell. */
  function ReadColumn(sheet: Sheet, refs: seq<CellRef>): (r: seq<CS.Cell>)
    ensures |r| == |refs| && forall i :: 0 <= i < |refs| ==> r[i] == CS.Cell(refs[i].row, Value(Lookup(sheet, refs[i])))
  {
    if refs == [] then [] else [CS.Cell(refs[0].row, Value(Lookup(sheet, refs[0])))] + ReadColumn(sheet, refs[1..])
  }

  /** `getColumnMatchUps(sheet, round, players)`: the column scan with the row before the first as its start. */
  function ColumnRound(sheet: Sheet, refs: seq<CellRef>, env: CS.Env): LR.LRound {
    var c := CS.Scan(ReadColumn(sheet, refs), 1, env);
    LR.LRound(c.roundOccurrences, LR.FromColumns(c.matches))
  }

  function ColumnRounds(sheet: Sheet, columns: seq<seq<CellRef>>, env: CS.Env): (r: seq<LR.LRound>)
    ensures |r| == |columns| && forall i :: 0 <= i < |columns| ==> r[i] == ColumnRound(sheet, columns[i], env)
  {
    if columns == [] then [] else [ColumnRound(sheet, columns[0], env)] + ColumnRounds(sheet, columns[1..], env)
  }

  /** `match.winners[0]` of every match with winners; an empty list gives `undefined`, which no draw position equals. */
  function Leaders(ms: seq<LR.LMatch>): seq<int> {
    if ms == [] then []
    else (if ms[0].side.Winners? && ms[0].side.winners != [] then [ms[0].side.winners[0]] else []) + Leaders(ms[1..])
  }

  predicate NoResults(ms: seq<LR.LMatch>) {
    forall k :: 0 <= k < |ms| ==> !LR.HasResult(ms[k])
  }

  /**
   * `first_round`: set by every column without a single result, so the last
   * such column decides; an empty list still counts as set.
   */
  function FirstRound(rounds: seq<LR.LRound>): Option<seq<int>> {
    if rounds == [] then None
    else if NoResults(rounds[|rounds| - 1].matches) then Some(Leaders(rounds[|rounds| - 1].matches))
    else FirstRound(rounds[..|rounds| - 1])
  }

  function MatchesOf(rounds: seq<LR.LRound>): (r: seq<seq<LR.LMatch>>)
    ensures |r| == |rounds| && forall i :: 0 <= i < |rounds| ==> r[i] == rounds[i].matches
  {
    if rounds == [] then [] else [rounds[0].matches] + MatchesOf(rounds[1..])
  }

  /** A match that keeps its round: one with winners keeps it only with at least one. */
  predicate Counts(m: LR.LMatch) {
    m.side.Winners? ==> m.side.winners != []
  }

  /** `rounds.filter(round => round.filter(f => f.winners ? f.winners.length : true).length)` */
  predicate KeepsRound(ms: seq<LR.LMatch>) {
    Filter(ms, Counts) != []
  }

  // ---------------------------------------------------------------- the played matches

  /** `f.losers && f.result` */
  predicate Played(m: LR.LMatch) {
    m.losers.Some? && LR.HasResult(m)
  }

  /** A played match with the names of its winners and, when the sheet has one, the gender. */
  datatype KoMatch = KoMatch(m: LR.LMatch, winnerNames: seq<string>, gender: Option<string>)

  /**
   * `match.winner_names = players.filter(f => +f.drawPosition === +match.winners[0])`,
   * then the gender when it is set. A match without a `winners` list is never
   * named: the naming throws on it first.
   */
  function NameMatch(m: LR.LMatch, players: seq<LegacyPlayer>, gender: string): KoMatch {
    var names := if !m.side.Winners? || m.side.winners == [] then [] else LR.LoserNames(players, Some(m.side.winners[0]));
    KoMatch(m, names, if gender != "" then Some(gender) else None)
  }

  /** Naming the played matches in order; a match without a `winners` list throws. */
  function Named(ms: seq<LR.LMatch>, players: seq<LegacyPlayer>, gender: string): (r: Result<seq<KoMatch>>)
    ensures r.Err? <==> exists k :: 0 <= k < |ms| && !ms[k].side.Winners?
    ensures r.Ok? ==> |r.value| == |ms|
    ensures r.Ok? ==> forall k :: 0 <= k < |ms| ==> r.value[k] == NameMatch(ms[k], players, gender)
    ensures r.Ok? ==> forall k :: 0 <= k < |ms| ==> r.value[k].m == ms[k] && NamedAs(r.value[k], players, gender)
  {
    if ms == [] then Ok([])
    else
      var rest := Named(ms[1..], players, gender);
      assert forall k :: 1 <= k < |ms| ==> ms[k] == ms[1..][k - 1];
      if !ms[0].side.Winners? then Err("TypeError: match.winners is undefined")
      else if rest.Err? then Err(rest.reason)
      else
        var r := [NameMatch(ms[0], players, gender)] + rest.value;
        assert forall k :: 1 <= k < |ms| ==> r[k] == rest.value[k - 1];
        Ok(r)
  }

  /** `[].concat(...rounds).filter(f => f.losers && f.result)` */
  function PlayedMatches(rounds: seq<seq<LR.LMatch>>): seq<LR.LMatch> {
    Filter(Flatten(rounds), Played)
  }

  /** The played matches are exactly the matches of the rounds that have losers and a result. */
  lemma PlayedMatchesMembers(rounds: seq<seq<LR.LMatch>>, m: LR.LMatch)
    ensures m in PlayedMatches(rounds) <==> Played(m) && exists i :: 0 <= i < |rounds| && m in rounds[i]
  {
    FilterMembers(Flatten(rounds), Played, m);
    InFlatten(rounds, m);
  }

  // ---------------------------------------------------------------- the rounds after the naming

  /**
   * A match of the returned rounds. The naming changes the played matches in
   * place, so in the rounds a played match is the named object itself.
   */
  type KoSlot = Slot<LR.LMatch, KoMatch>

  /** The naming applied to each played match. */
  function Naming(players: seq<LegacyPlayer>, gender: string): LR.LMatch -> KoMatch {
    m => NameMatch(m, players, gender)
  }

  /** The match a named one was made from. */
  function Unnamed(n: KoMatch): LR.LMatch {
    n.m
  }

  /** Naming a match keeps it underneath. */
  lemma NamingKeeps(players: seq<LegacyPlayer>, gender: string)
    ensures Keeps(Played, Naming(players, gender), Unnamed)
  {
  }

  /** The named matches the rounds hold are the ones the naming returned, and a match is named exactly when it is played. */
  lemma PlacedShape(final: seq<seq<LR.LMatch>>, players: seq<LegacyPlayer>, gender: string, named: seq<KoMatch>)
    requires Named(PlayedMatches(final), players, gender) == Ok(named)
    ensures var placed := PlaceRounds(final, Played, Naming(players, gender));
      && BaseRounds(placed, Unnamed) == final
      && named == NamedIn(Flatten(placed))
      && forall i, j :: 0 <= i < |placed| && 0 <= j < |placed[i]| ==> (placed[i][j].AsNamed? <==> Played(Base(placed[i][j], Unnamed)))
  {
    NamingKeeps(players, gender);
    BaseRoundsPlaced(final, Played, Naming(players, gender), Unnamed);
    FlattenPlaced(final, Played, Naming(players, gender));
    NamedInPlaced(Flatten(final), Played, Naming(players, gender));
    PlacedNamed(final, Played, Naming(players, gender), Unnamed);
  }

  // ---------------------------------------------------------------- the knockout branch

  /** A knockout draw: the rounds from the final to the entry round, and the played matches. */
  datatype KoDraw = KoDraw(rounds: seq<seq<KoSlot>>, matches: seq<KoMatch>, rank: Option<nat>)

  /** What the knockout branch reads: the sheet, its players, the references of its round columns and the helpers. */
  datatype KoInput = KoInput(
    sheet: Sheet,
    players: seq<LegacyPlayer>,
    columns: seq<seq<CellRef>>,
    nd: Normalizer,
    normalize: string -> string,
    gender: string)

  /** The scan's helpers: `tp.drawPosition` over the sheet's players, and `normalizeScore`. */
  function ScanEnv(input: KoInput): CS.Env {
    CS.Env((t: string, idx: nat) => DrawPosition(t, input.players, idx, input.nd), input.normalize)
  }

  /** The rounds the columns give, before any embedded round is added. */
  function Scanned(input: KoInput): seq<LR.LRound> {
    ColumnRounds(input.sheet, input.columns, ScanEnv(input))
  }

  /** `draw_byes[n]` in a table. */
  function ByesIn(table: map<int, seq<int>>, n: int): Option<seq<int>> {
    if n in table then Some(table[n]) else None
  }

  /** The players `add1stRound` is given: those named first in the first round's matches, when that round was found. */
  function Entrants(players: seq<LegacyPlayer>, first: Option<seq<int>>): seq<LegacyPlayer> {
    if first.None? then players else Filter(players, (p: LegacyPlayer) => p.drawPosition in first.value)
  }

  /**
   * The rounds after `addByes`, the reversal, `add1stRound` and the filter of
   * empty rounds, before `constructMatchUps`; `known` is whether the profile is
   * set, and `table` the bye table once `addByes` has run.
   */
  function Arranged(rounds: seq<seq<LR.LMatch>>, known: bool, table: map<int, seq<int>>, players: seq<LegacyPlayer>, first: Option<seq<int>>): seq<seq<LR.LMatch>> {
    var kept := if known then rounds else [];
    var entrants := Entrants(players, first);
    Filter(LR.AddFirstRound(Reverse(kept), entrants, ByesIn(table, |entrants|)), KeepsRound)
  }

  /** The rounds after `findEmbeddedRounds`: the columns' rounds, then the embedded ones. */
  function Embedded(input: KoInput): Result<seq<seq<LR.LMatch>>> {
    match LR.EmbedRounds(Scanned(input))
    case Err(e) => Err(e)
    case Ok(emb) => Ok(MatchesOf(emb.1) + emb.0)
  }

  /** The bye table the branch leaves: `addByes` empties the entry of this many players when the profile is set and there are rounds. */
  function TableAfter(known: bool, table: map<int, seq<int>>, input: KoInput): map<int, seq<int>> {
    match Embedded(input)
    case Err(_) => table
    case Ok(rounds) => if rounds != [] && known then table[|input.players| := []] else table
  }

  /** Where the branch stops: with no round (the early return), or with the annotated rounds. */
  datatype Stage = NoRounds | Annotated(rounds: seq<seq<LR.LMatch>>)

  /** `add1stRound`, the round filter and `constructMatchUps` on the embedded rounds. */
  function AnnotateRounds(rounds: seq<seq<LR.LMatch>>, known: bool, table: map<int, seq<int>>, players: seq<LegacyPlayer>, first: Option<seq<int>>): Result<seq<seq<LR.LMatch>>> {
    LR.ConstructMatchUps(Arranged(rounds, known, table, players, first), players)
  }

  /** The rounds after `constructMatchUps`, or the error thrown on the way. */
  function Annotate(known: bool, table: map<int, seq<int>>, input: KoInput): Result<Stage> {
    match Embedded(input)
    case Err(e) => Err(e)
    case Ok(rounds) =>
      if rounds == [] then Ok(NoRounds)
      else
        match AnnotateRounds(rounds, known, TableAfter(known, table, input), input.players, FirstRound(Scanned(input)))
        case Err(e) => Err(e)
        case Ok(final) => Ok(Annotated(final))
  }

  /** What the branch returns from where it stopped: the rounds with their played matches, named. */
  function Conclude(stage: Stage, players: seq<LegacyPlayer>, gender: string, q5: string): Result<KoDraw> {
    match stage
    case NoRounds => Ok(KoDraw([], [], None))
    case Annotated(final) =>
      match Named(PlayedMatches(final), players, gender)
      case Err(e) => Err(e)
      case Ok(named) => Ok(KoDraw(PlaceRounds(final, Played, Naming(players, gender)), named, RankOverride(q5)))
  }

  /**
   * The knockout branch, from the profile's being set and the bye table as
   * it was: no round column gives no round and no match; otherwise the
   * annotated rounds and their played matches, named.
   */
  function Knockout(known: bool, table: map<int, seq<int>>, input: KoInput, q5: string): Result<KoDraw> {
    match Annotate(known, table, input)
    case Err(e) => Err(e)
    case Ok(stage) => Conclude(stage, input.players, input.gender, q5)
  }

  /** Without any round, the branch returns early: no round, no match, the bye table untouched. */
  lemma KnockoutNoRounds(known: bool, table: map<int, seq<int>>, input: KoInput, q5: string)
    requires Embedded(input) == Ok([])
    ensures Knockout(known, table, input, q5) == Ok(KoDraw([], [], None)) && TableAfter(known, table, input) == table
  {
  }

  /** The branch once the embedded rounds are known, step by step as the script runs it. */
  lemma KnockoutSteps(known: bool, table: map<int, seq<int>>, input: KoInput, q5: string, rounds: seq<seq<LR.LMatch>>)
    requires Embedded(input) == Ok(rounds) && rounds != []
    ensures
      && TableAfter(known, table, input) == (if known then table[|input.players| := []] else table)
      && Knockout(known, table, input, q5) ==
           match AnnotateRounds(rounds, known, TableAfter(known, table, input), input.players, FirstRound(Scanned(input)))
           case Err(e) => Err(e)
           case Ok(final) => Conclude(Annotated(final), input.players, input.gender, q5)
  {
  }

  /** A sheet without round columns yields no round and no match, and leaves the bye table alone. */
  lemma KnockoutWithoutColumns(known: bool, table: map<int, seq<int>>, input: KoInput, q5: string)
    requires input.columns == []
    ensures Knockout(known, table, input, q5) == Ok(KoDraw([], [], None))
    ensures TableAfter(known, table, input) == table
  {
    assert Scanned(input) == [];
    assert LR.EmbedRounds([]) == Ok(([], []));
    assert MatchesOf([]) == [];
  }

  /** A match named as `winner_names` and `gender` say: after the players holding its first winner's position, with the sheet's gender when it has one. */
  predicate NamedAs(km: KoMatch, players: seq<LegacyPlayer>, gender: string) {
    && km.m.side.Winners?
    && km.winnerNames == (if km.m.side.winners == [] then [] else LR.LoserNames(players, Some(km.m.side.winners[0])))
    && km.gender == (if gender != "" then Some(gender) else None)
  }

  lemma NamedShape(ms: seq<LR.LMatch>, players: seq<LegacyPlayer>, gender: string)
    requires Named(ms, players, gender).Ok?
    ensures var r := Named(ms, players, gender).value;
      |r| == |ms| && forall k :: 0 <= k < |ms| ==> r[k].m == ms[k] && NamedAs(r[k], players, gender)
  {
  }

  /** When the entry round has someone in it, it is the last round, as `add1stRound` built it. */
  lemma ArrangedEntryLast(rounds: seq<seq<LR.LMatch>>, known: bool, table: map<int, seq<int>>, players: seq<LegacyPlayer>, first: Option<seq<int>>)
    requires var entrants := Entrants(players, first);
      LR.EntryPositions(Reverse(if known then rounds else []), entrants, ByesIn(table, |entrants|)) != []
    ensures var entrants := Entrants(players, first);
      var r := Arranged(rounds, known, table, players, first);
      r != [] && r[|r| - 1] == LR.EntryMatches(LR.EntryPositions(Reverse(if known then rounds else []), entrants, ByesIn(table, |entrants|)))
  {
    var entrants := Entrants(players, first);
    var reversed := Reverse(if known then rounds else []);
    var byes := ByesIn(table, |entrants|);
    var entry := LR.EntryMatches(LR.EntryPositions(reversed, entrants, byes));
    assert LR.AddFirstRound(reversed, entrants, byes) == reversed + [entry];
    FilterAppend(reversed, entry, KeepsRound);
    assert entry[0].side.Players?;
    assert entry[0] in Filter(entry, Counts) by {
      FilterMembers(entry, Counts, entry[0]);
    }
  }

  /**
   * The matches of a knockout draw are, in order, exactly the matches of its
   * rounds that have losers and a result, each named after the players
   * holding its first winner's position and carrying the sheet's gender when
   * it has one; in the rounds, the played matches are these named matches
   * themselves.
   */
  lemma KnockoutMatches(stage: Stage, players: seq<LegacyPlayer>, gender: string, q5: string)
    requires Conclude(stage, players, gender, q5).Ok?
    ensures var d := Conclude(stage, players, gender, q5).value;
      var base := BaseRounds(d.rounds, Unnamed);
      && |d.matches| == |PlayedMatches(base)|
      && (forall k :: 0 <= k < |d.matches| ==> d.matches[k].m == PlayedMatches(base)[k] && NamedAs(d.matches[k], players, gender))
      && (forall m :: m in PlayedMatches(base) <==> Played(m) && exists i :: 0 <= i < |base| && m in base[i])
    ensures var d := Conclude(stage, players, gender, q5).value;
      && d.matches == NamedIn(Flatten(d.rounds))
      && forall i, j :: 0 <= i < |d.rounds| && 0 <= j < |d.rounds[i]| ==> (d.rounds[i][j].AsNamed? <==> Played(Base(d.rounds[i][j], Unnamed)))
  {
    var d := Conclude(stage, players, gender, q5).value;
    if stage.Annotated? {
      NamedShape(PlayedMatches(stage.rounds), players, gender);
      PlacedShape(stage.rounds, players, gender, d.matches);
    } else {
      assert Flatten<LR.LMatch>([]) == [];
      assert Flatten<KoSlot>([]) == [];
    }
    var base := BaseRounds(d.rounds, Unnamed);
    forall m ensures m in PlayedMatches(base) <==> Played(m) && exists i :: 0 <= i < |base| && m in base[i] {
      PlayedMatchesMembers(base, m);
    }
  }

  /**
   * In the draw, the entry round (when it has someone in it) stays last and
   * unchanged by the annotation: its `{players: [dp]}` matches, one per
   * position that won nothing and has no bye.
   */
  lemma KnockoutEntryLast(rounds: seq<seq<LR.LMatch>>, known: bool, table: map<int, seq<int>>, players: seq<LegacyPlayer>, first: Option<seq<int>>)
    requires AnnotateRounds(rounds, known, table, players, first).Ok?
    requires var entrants := Entrants(players, first);
      LR.EntryPositions(Reverse(if known then rounds else []), entrants, ByesIn(table, |entrants|)) != []
    ensures var entrants := Entrants(players, first);
      var final := AnnotateRounds(rounds, known, table, players, first).value;
      final != [] && final[|final| - 1] == LR.EntryMatches(LR.EntryPositions(Reverse(if known then rounds else []), entrants, ByesIn(table, |entrants|)))
  {
    ArrangedEntryLast(rounds, known, table, players, first);
    LR.ConstructMatchUpsKeeps(Arranged(rounds, known, table, players, first), players);
  }
}
