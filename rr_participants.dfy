/**
 * `extractRoundRobinParticipants`: the players and the matchUps of a round
 * robin sheet. The participant rows are classified one by one:
 * - a row with a draw position and a name is a player;
 * - a row repeating a known draw position is a result row of the current group;
 * - any other row with a draw position may be a group header (it names a
 *   player) or a playoff row (it holds "vs.").
 * Each result row then yields the matchUps its own participant won against
 * the opponents of its group, and each playoff row yields one playoff matchUp.
 */
module RoundRobinParticipants {
  import opened Common
  import opened Sheets
  import PR = ParticipantRows

  /**
   * The helpers the routine calls from modules outside this model:
   * - `numberValue(col, row)` is the number in a cell;
   * - `lastFirstI` and `nameHash` come from the draw functions;
   * - `hashId`, `normalizeScore` and `tidyScore` come from the utilities and score cleaners.
   */
  datatype Env = Env(
    numberValue: (char, int) -> int,
    lastFirstI: string -> string,
    nameHash: string -> string,
    hashId: string -> string,
    normalizeScore: string -> string,
    tidyScore: string -> string)

  /** What every step reads: the sheet, the profile's columns, the sheet's gender and the helpers. */
  datatype Ctx = Ctx(sheet: Sheet, columns: PR.Columns, gender: Option<string>, env: Env)

  /** A player as `extractPlayer` builds it; an attribute whose column is not named is none. */
  datatype RrPlayer = RrPlayer(
    drawPosition: string,
    seed: Option<int>,
    fullName: string,
    lastFirstI: string,
    lastName: string,
    firstName: string,
    hash: string,
    participantId: string,
    personId: Option<string>,
    gender: Option<string>,
    club: Option<string>,
    rank: Option<int>,
    entry: Option<string>,
    ioc: Option<string>,
    roundRobinResult: Option<int>)

  /** A matchUp of a group (`roundName` "RR") or of the playoff ("Playoff", no group). */
  datatype RrMatchUp = RrMatchUp(
    result: string,
    winningSide: seq<Option<RrPlayer>>,
    losingSide: seq<Option<RrPlayer>>,
    groupNumber: Option<nat>,
    roundName: string,
    drawPositions: seq<string>,
    gender: Option<string>)

  // ---------------------------------------------------------------- cells

  /** `getCellValue(sheet[`${col}${row}`])`: the text of the cell, '' when absent or when the column is not named. */
  function Value(sheet: Sheet, col: Option<char>, row: int): string {
    if col.None? || row < 0 then ""
    else match Lookup(sheet, CellRef(col.value, row as nat))
      case None => ""
      case Some(t) => t
  }

  /** `Object.keys(sheet).filter(inRow).map(getValue)`: the values of a row, in key order. */
  function RowValues(sheet: Sheet, row: int): seq<string> {
    Texts(Filter(sheet, (e: Entry) => e.ref.row as int == row))
  }

  predicate NonEmpty(s: string) { s != "" }

  // ---------------------------------------------------------------- players

  /**
   * The first match of `/\[(\d+)(\/\d+)?\]/` starting at the front of `t`:
   * the seed number in the brackets.
   */
  function SeedAt(t: string): Option<nat> {
    if t == [] || t[0] != '[' then None
    else
      var d := LeadingDigits(t[1..]);
      var rest := t[1 + |d|..];
      if d == [] || rest == [] then None
      else if rest[0] == ']' then Some(DigitsValue(d))
      else if rest[0] == '/' then
        var e := LeadingDigits(rest[1..]);
        if e != [] && |rest| > 1 + |e| && rest[1 + |e|] == ']' then Some(DigitsValue(d)) else None
      else None
  }

  /** `extract_seed.exec(fullName)[1]`: the seed of the leftmost match, none when there is none. */
  function BracketSeed(s: string): Option<nat> {
    SeedFrom(s, 0)
  }

  /** The seed of the leftmost match at or after position k. */
  function SeedFrom(s: string, k: nat): Option<nat>
    decreases |s| - k
  {
    if k >= |s| then None
    else if SeedAt(s[k..]).Some? then SeedAt(s[k..])
    else SeedFrom(s, k + 1)
  }

  /** A match that starts at position i. */
  predicate MatchesAt(s: string, i: int) {
    0 <= i < |s| && SeedAt(s[i..]).Some?
  }

  lemma {:induction false} SeedFromLeftmost(s: string, k: nat)
    requires k <= |s|
    decreases |s| - k
    ensures SeedFrom(s, k).Some? <==> exists i :: k <= i && MatchesAt(s, i)
    ensures SeedFrom(s, k).Some? ==>
      exists i :: k <= i && MatchesAt(s, i) && SeedFrom(s, k) == SeedAt(s[i..]) && forall j :: k <= j < i ==> !MatchesAt(s, j)
  {
    if k < |s| {
      if MatchesAt(s, k) {
        assert forall j :: k <= j < k ==> !MatchesAt(s, j);
      } else {
        SeedFromLeftmost(s, k + 1);
        if SeedFrom(s, k).Some? {
          var i :| k + 1 <= i && MatchesAt(s, i) && SeedFrom(s, k + 1) == SeedAt(s[i..]) && forall j :: k + 1 <= j < i ==> !MatchesAt(s, j);
          assert forall j :: k <= j < i ==> !MatchesAt(s, j);
        }
      }
    }
  }

  /** The leftmost-match rule: a seed is found exactly when the pattern matches somewhere, and it comes from the first position where it does. */
  lemma BracketSeedLeftmost(s: string)
    ensures BracketSeed(s).Some? <==> exists i :: MatchesAt(s, i)
    ensures BracketSeed(s).Some? ==>
      exists i :: MatchesAt(s, i) && BracketSeed(s) == SeedAt(s[i..]) && forall j :: 0 <= j < i ==> !MatchesAt(s, j)
  {
    SeedFromLeftmost(s, 0);
  }

  /** `firstName && lastName ? `${lastName}, ${firstName}` : players cell` */
  function BaseName(ctx: Ctx, row: int): string {
    var first := Value(ctx.sheet, ctx.columns.firstName, row);
    var last := Value(ctx.sheet, ctx.columns.lastName, row);
    if first != "" && last != "" then last + ", " + first else Value(ctx.sheet, ctx.columns.players, row)
  }

  /** The full name, with a bracketed seed and whatever follows the first '[' cut off. */
  function FullName(base: string): string {
    if BracketSeed(base).Some? then Trim(Split(base, '[')[0]) else base
  }

  /** An optional text attribute: the cell's text when the profile names the column. */
  function TextAttr(sheet: Sheet, col: Option<char>, row: int): Option<string> {
    if col.Some? then Some(Value(sheet, col, row)) else None
  }

  function NumberAttr(ctx: Ctx, col: Option<char>, row: int): Option<int> {
    if col.Some? then Some(ctx.env.numberValue(col.value, row)) else None
  }

  /** `extractPlayer` (never doubles here): none when the name is empty. */
  function ExtractPlayer(ctx: Ctx, row: int, drawPosition: string): Option<RrPlayer> {
    var c := ctx.columns;
    var first := Value(ctx.sheet, c.firstName, row);
    var last := Value(ctx.sheet, c.lastName, row);
    var base := BaseName(ctx, row);
    var full := FullName(base);
    var seed := if BracketSeed(base).Some? then Some(BracketSeed(base).value as int) else NumberAttr(ctx, c.seed, row);
    var lastName := if last != "" then last else ToLower(Trim(Split(full, ',')[0]));
    var commaParts := Split(full, ',');
    var firstName := if first != "" then first else ToLower(Trim(commaParts[|commaParts| - 1]));
    var hash := ctx.env.nameHash(firstName + lastName);
    var personId := if c.id.Some? then Some(ReplaceFirst(Value(ctx.sheet, c.id, row), "\"", "")) else None;
    if full == "" then None
    else Some(RrPlayer(drawPosition, seed, full, ctx.env.lastFirstI(full), lastName, firstName, hash, ctx.env.hashId(hash) + "-P",
                       personId, if ctx.gender.Some? && ctx.gender.value != "" then ctx.gender else None, TextAttr(ctx.sheet, c.club, row), NumberAttr(ctx, c.rank, row),
                       TextAttr(ctx.sheet, c.entry, row), TextAttr(ctx.sheet, c.country, row), NumberAttr(ctx, c.roundRobinResult, row)))
  }

  /**
   * `extractPlayer`'s name rules:
   * - the player exists exactly when the full name is non-empty;
   * - the full name is "last, first" when both name cells are filled, and the
   *   players cell otherwise;
   * - a bracketed seed is taken as the seed and cut from the name.
   */
  lemma ExtractPlayerShape(ctx: Ctx, row: int, drawPosition: string)
    ensures var p := ExtractPlayer(ctx, row, drawPosition);
      var first := Value(ctx.sheet, ctx.columns.firstName, row);
      var last := Value(ctx.sheet, ctx.columns.lastName, row);
      var base := if first != "" && last != "" then last + ", " + first else Value(ctx.sheet, ctx.columns.players, row);
      && (p.None? <==> FullName(base) == "")
      && (p.Some? ==>
            && p.value.drawPosition == drawPosition
            && (BracketSeed(base).None? ==> p.value.fullName == base)
            && (BracketSeed(base).Some? ==> p.value.seed == Some(BracketSeed(base).value as int) && '[' !in p.value.fullName)
            && (last != "" ==> p.value.lastName == last)
            && (first != "" ==> p.value.firstName == first)
            && p.value.participantId == ctx.env.hashId(p.value.hash) + "-P")
  {
    var base := BaseName(ctx, row);
    if BracketSeed(base).Some? {
      TrimMembers(Split(base, '[')[0]);
    }
  }

  // ---------------------------------------------------------------- results

  /** `score.replace(/\([0-9]+\)/g, "")`: every parenthesised number removed, left to right. */
  function StripTiebreaks(s: string): (r: string)
    ensures |r| <= |s|
  {
    if s == [] then []
    else
      var d := LeadingDigits(s[1..]);
      if s[0] == '(' && d != [] && |s| > 1 + |d| && s[1 + |d|] == ')' then StripTiebreaks(s[2 + |d|..])
      else [s[0]] + StripTiebreaks(s[1..])
  }

  /** `parseInt(s)` on the leading digits; NaN (none) when there are none. */
  function Number(s: string): Option<nat> {
    ParseInt(s)
  }

  /** `sideScores[0] > sideScores[1]`: false as soon as one side is not a number. */
  predicate SetWon(score: string) {
    var sides := Split(score, '-');
    |sides| >= 2 && Number(sides[0]).Some? && Number(sides[1]).Some? && Number(sides[0]).value > Number(sides[1]).value
  }

  /** `sets.map(set => won ? 1 : 0).reduce((a, b) => a + b)` */
  function Wins(sets: seq<string>): nat {
    if sets == [] then 0 else Wins(sets[..|sets| - 1]) + (if SetWon(sets[|sets| - 1]) then 1 else 0)
  }

  /** The tally is the number of sets the first side won. */
  lemma {:induction false} WinsCount(sets: seq<string>)
    ensures Wins(sets) == |Filter(sets, SetWon)|
  {
    if sets != [] {
      var init := sets[..|sets| - 1];
      WinsCount(init);
      assert sets == init + [sets[|sets| - 1]];
      FilterAppend(init, sets[|sets| - 1], SetWon);
    }
  }

  datatype Outcome = Outcome(winnerIndex: nat, score: string)

  /** `getWinnerIndex(result)` */
  function WinnerIndex(result: string, env: Env): (r: Outcome)
    ensures r.winnerIndex <= 1
  {
    if StartsWith(result, "jn") then Outcome(0, "W.O.")
    else if result == "megsérült" then Outcome(1, "W.O.")
    else if result == "feladta" then Outcome(1, "W.O.")
    else
      var score := env.normalizeScore(env.tidyScore(result));
      var sets := Split(env.normalizeScore(StripTiebreaks(score)), ' ');
      Outcome(if 2 * Wins(sets) > |sets| then 0 else 1, score)
  }

  /**
   * The fixed result texts: "jn..." is a walkover won by the row's side,
   * "megsérült" (injured) and "feladta" (retired) a walkover lost by it.
   * Any other result is won by the row's side exactly when it took more than
   * half of the sets, with tiebreaks ignored.
   */
  lemma WinnerIndexCases(result: string, env: Env)
    ensures StartsWith(result, "jn") ==> WinnerIndex(result, env) == Outcome(0, "W.O.")
    ensures !StartsWith(result, "jn") && (result == "megsérült" || result == "feladta") ==> WinnerIndex(result, env) == Outcome(1, "W.O.")
    ensures !StartsWith(result, "jn") && result != "megsérült" && result != "feladta" ==>
      var score := env.normalizeScore(env.tidyScore(result));
      var sets := Split(env.normalizeScore(StripTiebreaks(score)), ' ');
      && WinnerIndex(result, env).score == score
      && (WinnerIndex(result, env).winnerIndex == 0 <==> 2 * |Filter(sets, SetWon)| > |sets|)
  {
    var score := env.normalizeScore(env.tidyScore(result));
    WinsCount(Split(env.normalizeScore(StripTiebreaks(score)), ' '));
  }

  /** A text without parentheses loses no tiebreak. */
  lemma {:induction false} StripTiebreaksPlain(s: string)
    requires '(' !in s
    ensures StripTiebreaks(s) == s
  {
    if s != [] {
      assert '(' !in s[1..];
      StripTiebreaksPlain(s[1..]);
    }
  }

  // ---------------------------------------------------------------- classification

  /** The accumulators of the row loop. `groupMemberCount` maps a group number to its result rows. */
  datatype Classified = Classified(
    players: seq<RrPlayer>,
    playerRows: seq<int>,
    resultRows: seq<int>,
    drawPositions: seq<string>,
    playerLastNames: seq<string>,
    groupMemberCount: map<int, nat>,
    playoffRowValues: seq<seq<string>>,
    bracketHeaderRows: seq<int>)

  const Start: Classified := Classified([], [], [], [], [], map[], [], [])

  /** `groupMemberCount[group] || 0` */
  function CountOf(counts: map<int, nat>, group: int): nat {
    if group in counts then counts[group] else 0
  }

  /** `groupMemberCount[group] = (groupMemberCount[group] || 0) + 1` */
  function Bump(counts: map<int, nat>, group: int): (r: map<int, nat>)
    ensures forall g :: g != group ==> CountOf(r, g) == CountOf(counts, g)
    ensures CountOf(r, group) == CountOf(counts, group) + 1
  {
    counts[group := CountOf(counts, group) + 1]
  }

  /** The draw position of a row: the text of its position cell. */
  function PositionText(ctx: Ctx, row: int): string {
    Value(ctx.sheet, ctx.columns.position, row)
  }

  /** What the loop reads of a row: its draw position, the player it names and its non-empty values. */
  datatype RowFacts = RowFacts(row: int, drawPosition: string, player: Option<RrPlayer>, values: seq<string>)

  function Facts(ctx: Ctx, row: int): RowFacts {
    var dp := PositionText(ctx, row);
    RowFacts(row, dp, ExtractPlayer(ctx, row, dp), Filter(RowValues(ctx.sheet, row), NonEmpty))
  }

  function FactsOf(ctx: Ctx, rows: seq<int>): (r: seq<RowFacts>)
    ensures |r| == |rows| && forall i :: 0 <= i < |rows| ==> r[i] == Facts(ctx, rows[i])
  {
    seq(|rows|, i requires 0 <= i < |rows| => Facts(ctx, rows[i]))
  }

  /**
   * One row of `rows.forEach`. `lastDrawPositionCharCode` is never assigned,
   * so a row with a draw position and a player is always a valid draw position.
   */
  function Step(st: Classified, f: RowFacts): Classified {
    if f.player.Some? && f.drawPosition != "" then
      st.(players := st.players + [f.player.value], playerRows := st.playerRows + [f.row],
          drawPositions := st.drawPositions + [f.drawPosition], playerLastNames := st.playerLastNames + [ToUpper(f.player.value.lastName)])
    else if f.drawPosition == "" then st
    else if f.drawPosition in st.drawPositions then
      var group := |st.bracketHeaderRows|;
      st.(resultRows := st.resultRows + [f.row],
          groupMemberCount := if group == 0 then st.groupMemberCount else Bump(st.groupMemberCount, group))
    else
      var headed := if NamesPlayer(f.values, st.playerLastNames) then st.(bracketHeaderRows := st.bracketHeaderRows + [f.row]) else st;
      if "vs." in f.values && |f.values| > 4 then headed.(playoffRowValues := headed.playoffRowValues + [f.values]) else headed
  }

  /** `rowValuesIncludePlayers`: some value of the row is a recorded last name. */
  predicate NamesPlayer(values: seq<string>, lastNames: seq<string>) {
    exists v :: v in values && v in lastNames
  }

  /** The accumulators after the loop has seen the rows of `facts`. */
  function Classification(facts: seq<RowFacts>): Classified {
    if facts == [] then Start else Step(Classification(facts[..|facts| - 1]), facts[|facts| - 1])
  }

  /** `rows.forEach(...)`, pushing onto the accumulators. */
  method ClassifyRows(ctx: Ctx, rows: seq<int>) returns (st: Classified)
    ensures st == Classification(FactsOf(ctx, rows))
  {
    st := Start;
    ghost var facts := FactsOf(ctx, rows);
    for i := 0 to |rows|
      invariant st == Classification(facts[..i])
    {
      assert facts[..i + 1][..i] == facts[..i];
      ghost var next := Step(st, facts[i]);
      var row := rows[i];
      var dp := PositionText(ctx, row);
      var player := ExtractPlayer(ctx, row, dp);
      assert facts[i].drawPosition == dp && facts[i].player == player && facts[i].row == row;
      if player.Some? && dp != "" {
        st := st.(drawPositions := st.drawPositions + [dp], players := st.players + [player.value],
                  playerRows := st.playerRows + [row], playerLastNames := st.playerLastNames + [ToUpper(player.value.lastName)]);
        assert st == next;
      } else if dp != "" {
        if dp in st.drawPositions {
          var playerGroup := |st.bracketHeaderRows|;
          var counts := st.groupMemberCount;
          if playerGroup != 0 {
            counts := Bump(counts, playerGroup);
          }
          st := st.(resultRows := st.resultRows + [row], groupMemberCount := counts);
          assert st == next;
        } else {
          var rowValues := Filter(RowValues(ctx.sheet, row), NonEmpty);
          assert facts[i].values == rowValues;
          if NamesPlayer(rowValues, st.playerLastNames) {
            st := st.(bracketHeaderRows := st.bracketHeaderRows + [row]);
          }
          if "vs." in rowValues && |rowValues| > 4 {
            st := st.(playoffRowValues := st.playoffRowValues + [rowValues]);
          }
          assert st == next;
        }
      }
    }
    assert facts[..|rows|] == facts;
  }

  // ---------------------------------------------------------------- classification properties

  /** Players are recorded in lockstep: the i-th player, player row, draw position and upper-cased last name belong together. */
  predicate Lockstep(st: Classified) {
    && |st.players| == |st.playerRows| == |st.drawPositions| == |st.playerLastNames|
    && forall i :: 0 <= i < |st.players| ==> st.drawPositions[i] != "" && st.playerLastNames[i] == ToUpper(st.players[i].lastName)
  }

  /** Where each recorded row comes from: a row of `facts` with a player, a repeated position, or a header. */
  predicate Recorded(st: Classified, facts: seq<RowFacts>) {
    && |st.players| == |st.playerRows| == |st.drawPositions|
    && (forall i :: 0 <= i < |st.players| ==>
          exists f :: f in facts && f.row == st.playerRows[i] && f.drawPosition == st.drawPositions[i] && f.player == Some(st.players[i]))
    && (forall r :: r in st.resultRows ==>
          exists f :: f in facts && f.row == r && f.drawPosition != "" && f.drawPosition in st.drawPositions && f.player.None?)
    && (forall r :: r in st.bracketHeaderRows ==> exists f :: f in facts && f.row == r)
  }

  /** Recording a player row keeps every earlier record and records the new player with its row. */
  lemma PlayerRecorded(st: Classified, facts: seq<RowFacts>, f: RowFacts)
    requires Lockstep(st) && Recorded(st, facts)
    requires f.player.Some? && f.drawPosition != ""
    ensures var next := st.(players := st.players + [f.player.value], playerRows := st.playerRows + [f.row],
                            drawPositions := st.drawPositions + [f.drawPosition], playerLastNames := st.playerLastNames + [ToUpper(f.player.value.lastName)]);
      Lockstep(next) && Recorded(next, facts + [f])
  {
    var next := st.(players := st.players + [f.player.value], playerRows := st.playerRows + [f.row],
                    drawPositions := st.drawPositions + [f.drawPosition], playerLastNames := st.playerLastNames + [ToUpper(f.player.value.lastName)]);
    var all := facts + [f];
    assert forall g :: g in facts ==> g in all;
    assert f in all;
    forall i | 0 <= i < |next.players|
      ensures exists g :: g in all && g.row == next.playerRows[i] && g.drawPosition == next.drawPositions[i] && g.player == Some(next.players[i])
    {
      if i < |st.players| {
        assert next.playerRows[i] == st.playerRows[i] && next.drawPositions[i] == st.drawPositions[i] && next.players[i] == st.players[i];
      } else {
        assert f.row == next.playerRows[i];
      }
    }
  }

  /** Recording a result or header row keeps every earlier record. */
  lemma OtherRecorded(st: Classified, next: Classified, facts: seq<RowFacts>, f: RowFacts)
    requires Lockstep(st) && Recorded(st, facts)
    requires next.players == st.players && next.playerRows == st.playerRows && next.drawPositions == st.drawPositions
    requires next.playerLastNames == st.playerLastNames
    requires next.resultRows == st.resultRows || (next.resultRows == st.resultRows + [f.row] && f.drawPosition != "" && f.drawPosition in st.drawPositions && f.player.None?)
    requires next.bracketHeaderRows == st.bracketHeaderRows || next.bracketHeaderRows == st.bracketHeaderRows + [f.row]
    ensures Lockstep(next) && Recorded(next, facts + [f])
  {
    var all := facts + [f];
    assert forall g :: g in facts ==> g in all;
    assert f in all;
  }

  lemma StepRecorded(st: Classified, facts: seq<RowFacts>, f: RowFacts)
    requires Lockstep(st) && Recorded(st, facts)
    ensures Lockstep(Step(st, f)) && Recorded(Step(st, f), facts + [f])
  {
    if f.player.Some? && f.drawPosition != "" {
      PlayerRecorded(st, facts, f);
    } else {
      OtherRecorded(st, Step(st, f), facts, f);
    }
  }

  /** The players, result rows and header rows the loop records, stated against the rows it was given. */
  lemma {:induction false} ClassificationRecorded(facts: seq<RowFacts>)
    ensures Lockstep(Classification(facts)) && Recorded(Classification(facts), facts)
  {
    if facts != [] {
      var init := facts[..|facts| - 1];
      ClassificationRecorded(init);
      StepRecorded(Classification(init), init, facts[|facts| - 1]);
      assert init + [facts[|facts| - 1]] == facts;
    }
  }

  /**
   * What the loop makes of the rows:
   * - each player is what `extractPlayer` makes of its row, at the row's
   *   non-empty draw position, and its upper-cased last name is recorded with it;
   * - each result row repeats the draw position of a player row and names no player;
   * - every recorded row is one of the given rows.
   */
  lemma ClassificationValid(ctx: Ctx, rows: seq<int>)
    ensures var st := Classification(FactsOf(ctx, rows));
      && |st.players| == |st.playerRows| == |st.drawPositions| == |st.playerLastNames|
      && (forall i :: 0 <= i < |st.players| ==>
            && st.playerRows[i] in rows
            && st.drawPositions[i] != ""
            && st.drawPositions[i] == PositionText(ctx, st.playerRows[i])
            && ExtractPlayer(ctx, st.playerRows[i], st.drawPositions[i]) == Some(st.players[i])
            && st.playerLastNames[i] == ToUpper(st.players[i].lastName))
      && (forall r :: r in st.resultRows ==>
            && r in rows
            && PositionText(ctx, r) != ""
            && PositionText(ctx, r) in st.drawPositions
            && ExtractPlayer(ctx, r, PositionText(ctx, r)).None?)
      && (forall r :: r in st.bracketHeaderRows ==> r in rows)
  {
    var facts := FactsOf(ctx, rows);
    var st := Classification(facts);
    ClassificationRecorded(facts);
    forall f | f in facts ensures f.row in rows && f == Facts(ctx, f.row) {
      var k :| 0 <= k < |facts| && facts[k] == f;
    }
  }

  /** How many of the header rows lie above a row. */
  function HeadersAbove(headers: seq<int>, row: int): nat {
    if headers == [] then 0 else HeadersAbove(headers[..|headers| - 1], row) + (if headers[|headers| - 1] < row then 1 else 0)
  }

  lemma {:induction false} HeadersAboveAll(headers: seq<int>, row: int)
    requires forall h :: h in headers ==> h < row
    ensures HeadersAbove(headers, row) == |headers|
  {
    if headers != [] {
      var init := headers[..|headers| - 1];
      forall h | h in init ensures h < row {
        var k :| 0 <= k < |init| && init[k] == h;
        assert headers[k] == h && headers[k] in headers;
      }
      assert headers[|headers| - 1] in headers;
      HeadersAboveAll(init, row);
    }
  }

  predicate Increasing(s: seq<int>) {
    forall i, j :: 0 <= i < j < |s| ==> s[i] < s[j]
  }

  /** A filter that agrees on every element of the list keeps the same elements. */
  lemma {:induction false} FilterSameOn<T>(s: seq<T>, p: T -> bool, q: T -> bool)
    requires forall x :: x in s ==> p(x) == q(x)
    ensures Filter(s, p) == Filter(s, q)
  {
    if s != [] {
      assert forall x :: x in s[1..] ==> x in s;
      FilterSameOn(s[1..], p, q);
    }
  }

  /** The result rows of a group: those with exactly `group` header rows above them. */
  function GroupRows(st: Classified, group: int): seq<int> {
    Filter(st.resultRows, r => HeadersAbove(st.bracketHeaderRows, r) == group)
  }

  /** A result row below every header row counts in the group of all headers, and in no other. */
  lemma ResultCounts(st: Classified, row: int, group: int)
    requires group >= 1
    requires forall r :: r in st.bracketHeaderRows ==> r < row
    requires CountOf(st.groupMemberCount, group) == |GroupRows(st, group)|
    ensures var g := |st.bracketHeaderRows|;
      var next := st.(resultRows := st.resultRows + [row], groupMemberCount := if g == 0 then st.groupMemberCount else Bump(st.groupMemberCount, g));
      CountOf(next.groupMemberCount, group) == |GroupRows(next, group)|
  {
    HeadersAboveAll(st.bracketHeaderRows, row);
    FilterAppend(st.resultRows, row, r => HeadersAbove(st.bracketHeaderRows, r) == group);
  }

  /** A header row below every result row moves none of them to another group. */
  lemma HeaderCounts(st: Classified, next: Classified, row: int, group: int)
    requires forall r :: r in st.resultRows ==> r < row
    requires next.resultRows == st.resultRows && next.groupMemberCount == st.groupMemberCount
    requires next.bracketHeaderRows == st.bracketHeaderRows || next.bracketHeaderRows == st.bracketHeaderRows + [row]
    requires CountOf(st.groupMemberCount, group) == |GroupRows(st, group)|
    ensures CountOf(next.groupMemberCount, group) == |GroupRows(next, group)|
  {
    forall r | r in st.resultRows ensures HeadersAbove(next.bracketHeaderRows, r) == HeadersAbove(st.bracketHeaderRows, r) {
      if next.bracketHeaderRows != st.bracketHeaderRows {
        assert next.bracketHeaderRows[..|next.bracketHeaderRows| - 1] == st.bracketHeaderRows;
      }
    }
    FilterSameOn(st.resultRows, r => HeadersAbove(next.bracketHeaderRows, r) == group, r => HeadersAbove(st.bracketHeaderRows, r) == group);
  }

  /** One step keeps a group's count equal to its number of result rows, when the new row lies below every recorded row. */
  lemma StepCounts(st: Classified, f: RowFacts, group: int)
    requires group >= 1
    requires forall r :: r in st.resultRows ==> r < f.row
    requires forall r :: r in st.bracketHeaderRows ==> r < f.row
    requires CountOf(st.groupMemberCount, group) == |GroupRows(st, group)|
    ensures CountOf(Step(st, f).groupMemberCount, group) == |GroupRows(Step(st, f), group)|
  {
    if f.player.Some? && f.drawPosition != "" {
    } else if f.drawPosition == "" {
    } else if f.drawPosition in st.drawPositions {
      ResultCounts(st, f.row, group);
    } else {
      HeaderCounts(st, Step(st, f), f.row, group);
    }
  }

  lemma {:induction false} GroupCountsOf(facts: seq<RowFacts>, group: int)
    requires forall i, j :: 0 <= i < j < |facts| ==> facts[i].row < facts[j].row
    requires group >= 1
    ensures CountOf(Classification(facts).groupMemberCount, group) == |GroupRows(Classification(facts), group)|
  {
    if facts != [] {
      var init := facts[..|facts| - 1];
      var f := facts[|facts| - 1];
      GroupCountsOf(init, group);
      ClassificationRecorded(init);
      var st := Classification(init);
      forall r | r in st.resultRows ensures r < f.row {
        var g :| g in init && g.row == r;
        var k :| 0 <= k < |init| && init[k] == g;
      }
      forall r | r in st.bracketHeaderRows ensures r < f.row {
        var g :| g in init && g.row == r;
        var k :| 0 <= k < |init| && init[k] == g;
      }
      StepCounts(st, f, group);
    }
  }

  /**
   * On ascending rows, the member count of each group is the number of its
   * result rows: those with that many bracket header rows above them.
   */
  lemma GroupCounts(ctx: Ctx, rows: seq<int>, group: int)
    requires Increasing(rows) && group >= 1
    ensures var st := Classification(FactsOf(ctx, rows));
      CountOf(st.groupMemberCount, group) == |GroupRows(st, group)|
  {
    GroupCountsOf(FactsOf(ctx, rows), group);
  }

  // ---------------------------------------------------------------- matchUps of a result row

  /** The `groupNumber` reduce: one more than the index of the last header row above the row, undefined when none is. */
  function GroupNumber(headers: seq<int>, row: int): Option<nat> {
    if headers == [] then None
    else if row > headers[|headers| - 1] then Some(|headers|)
    else GroupNumber(headers[..|headers| - 1], row)
  }

  /** Over ascending header rows, the group number is the number of header rows above the row. */
  lemma {:induction false} GroupNumberCounts(headers: seq<int>, row: int)
    requires Increasing(headers)
    ensures GroupNumber(headers, row) == if HeadersAbove(headers, row) == 0 then None else Some(HeadersAbove(headers, row))
  {
    if headers != [] {
      var init := headers[..|headers| - 1];
      GroupNumberCounts(init, row);
      if row > headers[|headers| - 1] {
        HeadersAboveAll(init, row);
      } else {
        forall h | h in init ensures h >= row ==> true {
        }
        if HeadersAbove(init, row) != 0 {
          assert GroupNumber(init, row).Some?;
        }
      }
    }
  }

  /**
   * The count of the groups before the row's: for groups 1 up to one before
   * `groupNumber`, NaN (none) once one of them has no count.
   */
  function PreviousCount(counts: map<int, nat>, group: Option<nat>): Option<int> {
    if group.None? then Some(0) else CountsBelow(counts, group.value)
  }

  /** `generateRange(1, n).reduce((count, g) => count + groupMemberCount[g], 0)` */
  function CountsBelow(counts: map<int, nat>, n: nat): Option<int> {
    if n <= 1 then Some(0)
    else
      var before := CountsBelow(counts, n - 1);
      if before.None? || n - 1 !in counts then None else Some(before.value + counts[n - 1])
  }

  /** `players.reduce(...)`: the last player at the draw position. */
  function LastAt(players: seq<RrPlayer>, drawPosition: string): Option<RrPlayer> {
    if players == [] then None
    else if players[|players| - 1].drawPosition == drawPosition then Some(players[|players| - 1])
    else LastAt(players[..|players| - 1], drawPosition)
  }

  /** The players at other draw positions. */
  function Others(players: seq<RrPlayer>, drawPosition: string): seq<RrPlayer> {
    Filter(players, (p: RrPlayer) => p.drawPosition != drawPosition)
  }

  /** `result && getWinnerIndex(result)` with `winnerIndex === 0`: the row's own participant won. */
  predicate OwnWin(result: string, env: Env) {
    result != "" && WinnerIndex(result, env).winnerIndex == 0
  }

  function GroupMatchUp(opponent: RrPlayer, result: string, participant: Option<RrPlayer>, drawPosition: string, group: Option<nat>, ctx: Ctx): RrMatchUp {
    RrMatchUp(WinnerIndex(result, ctx.env).score, [participant], [Some(opponent)], group, "RR", [drawPosition, opponent.drawPosition], ctx.gender)
  }

  /** `opponents.map((opponent, i) => ...).filter(Boolean)`: the i-th opponent meets the i-th result. */
  function RowMatchUps(opponents: seq<RrPlayer>, results: seq<string>, participant: Option<RrPlayer>, drawPosition: string, group: Option<nat>, ctx: Ctx): seq<RrMatchUp> {
    if opponents == [] then []
    else
      (if results != [] && OwnWin(results[0], ctx.env) then [GroupMatchUp(opponents[0], results[0], participant, drawPosition, group, ctx)] else [])
      + RowMatchUps(opponents[1..], if results == [] then [] else results[1..], participant, drawPosition, group, ctx)
  }

  /** A row yields one matchUp per opponent whose result its own participant won, and no other. */
  lemma {:induction false} RowMatchUpsMembers(opponents: seq<RrPlayer>, results: seq<string>, participant: Option<RrPlayer>, drawPosition: string, group: Option<nat>, ctx: Ctx, m: RrMatchUp)
    ensures m in RowMatchUps(opponents, results, participant, drawPosition, group, ctx) <==>
      exists i :: 0 <= i < |opponents| && i < |results| && OwnWin(results[i], ctx.env)
        && m == GroupMatchUp(opponents[i], results[i], participant, drawPosition, group, ctx)
  {
    if opponents != [] {
      var rest := if results == [] then [] else results[1..];
      RowMatchUpsMembers(opponents[1..], rest, participant, drawPosition, group, ctx, m);
      if exists i :: 0 <= i < |opponents| && i < |results| && OwnWin(results[i], ctx.env)
          && m == GroupMatchUp(opponents[i], results[i], participant, drawPosition, group, ctx) {
        var i :| 0 <= i < |opponents| && i < |results| && OwnWin(results[i], ctx.env)
          && m == GroupMatchUp(opponents[i], results[i], participant, drawPosition, group, ctx);
        if i > 0 {
          assert opponents[1..][i - 1] == opponents[i] && rest[i - 1] == results[i];
        }
      }
      if m in RowMatchUps(opponents[1..], rest, participant, drawPosition, group, ctx) {
        var i :| 0 <= i < |opponents[1..]| && i < |rest| && OwnWin(rest[i], ctx.env)
          && m == GroupMatchUp(opponents[1..][i], rest[i], participant, drawPosition, group, ctx);
        assert opponents[i + 1] == opponents[1..][i] && results[i + 1] == rest[i];
      }
    }
  }

  /** The opponents of a row: the players at other draw positions, without the members of the earlier groups. */
  function Opponents(st: Classified, drawPosition: string, group: Option<nat>): seq<RrPlayer> {
    var previous := PreviousCount(st.groupMemberCount, group);
    var skip := if previous.Some? && previous.value >= 0 then previous.value else 0;
    JsSlice(Others(st.players, drawPosition), skip, None)
  }

  /** `extractMatchUps({bracketHeaderRows, groupMemberCount, row, players}).matchUps` */
  function ExtractMatchUps(ctx: Ctx, st: Classified, row: int): seq<RrMatchUp> {
    var values := RowValues(ctx.sheet, row);
    if values == [] then []
    else
      var drawPosition := values[0];
      var group := GroupNumber(st.bracketHeaderRows, row);
      RowMatchUps(Opponents(st, drawPosition, group), JsSlice(values, 2, None), LastAt(st.players, drawPosition), drawPosition, group, ctx)
  }

  // ---------------------------------------------------------------- playoff

  /** `playerByLastName({lastName})`: the last player whose last name is the first word of the query. */
  function PlayerByLastName(players: seq<RrPlayer>, lastName: string): Option<RrPlayer> {
    var last := Split(lastName, ' ')[0];
    LastNamed(players, last)
  }

  function LastNamed(players: seq<RrPlayer>, last: string): Option<RrPlayer> {
    if players == [] then None
    else if players[|players| - 1].lastName == last then Some(players[|players| - 1])
    else LastNamed(players[..|players| - 1], last)
  }

  /** The lookup finds the last player with that last name, and none exactly when no player has it. */
  lemma {:induction false} LastNamedShape(players: seq<RrPlayer>, last: string)
    ensures LastNamed(players, last).None? <==> forall i :: 0 <= i < |players| ==> players[i].lastName != last
    ensures LastNamed(players, last).Some? ==>
      exists i :: 0 <= i < |players| && players[i] == LastNamed(players, last).value && players[i].lastName == last
        && forall j :: i < j < |players| ==> players[j].lastName != last
  {
    if players != [] {
      var init := players[..|players| - 1];
      LastNamedShape(init, last);
      if players[|players| - 1].lastName != last && LastNamed(init, last).Some? {
        var i :| 0 <= i < |init| && init[i] == LastNamed(init, last).value && init[i].lastName == last
          && forall j :: i < j < |init| ==> init[j].lastName != last;
        assert players[i] == init[i];
      }
    }
  }

  /**
   * One playoff row: the players named left and right of "vs." and the result
   * after them. A missing side drops the row; a missing neighbour of "vs."
   * or a missing result is dereferenced and throws.
   */
  function PlayoffMatchUp(values: seq<string>, players: seq<RrPlayer>, ctx: Ctx): Result<Option<RrMatchUp>> {
    var vs := IndexOf(values, "vs.");
    if vs < 1 || vs + 1 >= |values| then Err("TypeError: lastName is undefined")
    else
      var side1 := PlayerByLastName(players, values[vs - 1]);
      var side2 := PlayerByLastName(players, values[vs + 1]);
      if side1.None? || side2.None? then Ok(None)
      else if vs + 2 >= |values| then Err("TypeError: result is undefined")
      else
        var outcome := WinnerIndex(values[vs + 2], ctx.env);
        var winning := if outcome.winnerIndex != 0 then side2 else side1;
        var losing := if outcome.winnerIndex != 0 then side1 else side2;
        Ok(Some(RrMatchUp(outcome.score, [winning], [losing], None, "Playoff", [side1.value.drawPosition, side2.value.drawPosition], ctx.gender)))
  }

  /** In a playoff matchUp side 2 wins when the result's winner index is 1, side 1 otherwise. */
  lemma PlayoffSides(values: seq<string>, players: seq<RrPlayer>, ctx: Ctx)
    requires PlayoffMatchUp(values, players, ctx).Ok? && PlayoffMatchUp(values, players, ctx).value.Some?
    ensures var vs := IndexOf(values, "vs.");
      var m := PlayoffMatchUp(values, players, ctx).value.value;
      var side1 := PlayerByLastName(players, values[vs - 1]);
      var side2 := PlayerByLastName(players, values[vs + 1]);
      var outcome := WinnerIndex(values[vs + 2], ctx.env);
      && 1 <= vs && vs + 2 < |values|
      && side1.Some? && side2.Some?
      && (outcome.winnerIndex == 1 ==> m.winningSide == [side2] && m.losingSide == [side1])
      && (outcome.winnerIndex == 0 ==> m.winningSide == [side1] && m.losingSide == [side2])
      && m.drawPositions == [side1.value.drawPosition, side2.value.drawPosition]
      && m.result == outcome.score && m.roundName == "Playoff"
  {
  }

  /** `getPlayoffMatchUps`: the first throwing row makes the whole routine throw. */
  function PlayoffMatchUps(rowsValues: seq<seq<string>>, players: seq<RrPlayer>, ctx: Ctx): Result<seq<RrMatchUp>> {
    if rowsValues == [] then Ok([])
    else
      match PlayoffMatchUps(rowsValues[..|rowsValues| - 1], players, ctx)
      case Err(e) => Err(e)
      case Ok(before) =>
        match PlayoffMatchUp(rowsValues[|rowsValues| - 1], players, ctx)
        case Err(e) => Err(e)
        case Ok(m) => Ok(before + (if m.Some? then [m.value] else []))
  }

  /**
   * The playoff rows succeed together or not at all, and each playoff
   * matchUp is the one of a row that names both its sides.
   */
  lemma {:induction false} PlayoffMatchUpsShape(rowsValues: seq<seq<string>>, players: seq<RrPlayer>, ctx: Ctx)
    ensures var r := PlayoffMatchUps(rowsValues, players, ctx);
      && (r.Ok? <==> forall i :: 0 <= i < |rowsValues| ==> PlayoffMatchUp(rowsValues[i], players, ctx).Ok?)
      && (r.Ok? ==> |r.value| <= |rowsValues|
                    && forall m :: m in r.value ==> exists i :: 0 <= i < |rowsValues| && PlayoffMatchUp(rowsValues[i], players, ctx) == Ok(Some(m)))
  {
    if rowsValues != [] {
      var init := rowsValues[..|rowsValues| - 1];
      var n := |rowsValues| - 1;
      PlayoffMatchUpsShape(init, players, ctx);
      assert forall i :: 0 <= i < |init| ==> init[i] == rowsValues[i];
      var before := PlayoffMatchUps(init, players, ctx);
      var last := PlayoffMatchUp(rowsValues[n], players, ctx);
      if before.Ok? && last.Ok? {
        var r := PlayoffMatchUps(rowsValues, players, ctx);
        assert r.value == before.value + (if last.value.Some? then [last.value.value] else []);
        forall m | m in r.value
          ensures exists i :: 0 <= i < |rowsValues| && PlayoffMatchUp(rowsValues[i], players, ctx) == Ok(Some(m))
        {
          if m !in before.value {
            assert PlayoffMatchUp(rowsValues[n], players, ctx) == Ok(Some(m));
          }
        }
      }
    }
  }

  // ---------------------------------------------------------------- the routine

  datatype Extracted = Extracted(players: seq<RrPlayer>, matchUps: seq<RrMatchUp>, isDoubles: bool)

  function GroupMatchUps(ctx: Ctx, st: Classified): seq<RrMatchUp> {
    Flatten(seq(|st.resultRows|, i requires 0 <= i < |st.resultRows| => ExtractMatchUps(ctx, st, st.resultRows[i])))
  }

  /** `extractRoundRobinParticipants`: the players, then the group matchUps of the result rows and the playoff matchUps. */
  function ExtractOf(ctx: Ctx, rows: seq<int>): Result<Extracted> {
    var st := Classification(FactsOf(ctx, rows));
    match PlayoffMatchUps(st.playoffRowValues, st.players, ctx)
    case Err(e) => Err(e)
    case Ok(playoff) => Ok(Extracted(st.players, GroupMatchUps(ctx, st) + playoff, false))
  }

  method ExtractRoundRobinParticipants(ctx: Ctx, rows: seq<int>) returns (r: Result<Extracted>)
    ensures r == ExtractOf(ctx, rows)
  {
    var st := ClassifyRows(ctx, rows);
    var playoff := PlayoffMatchUps(st.playoffRowValues, st.players, ctx);
    if playoff.Err? {
      return Err(playoff.reason);
    }
    r := Ok(Extracted(st.players, GroupMatchUps(ctx, st) + playoff.value, false));
  }
}
