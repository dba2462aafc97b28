/**
 * The state of the legacy tournament parser, `tp`: the profile chosen for a
 * workbook and the bye table shared by all sheets, and the operations that
 * read or change them.
 */
module LegacyParser {
  import opened Common
  import opened Sheets
  import opened LegacyNames
  import opened Slots
  import LR = LegacyRounds
  import G = Gaps
  import LD = LegacyDraw
  import LRR = LegacyRoundRobin

  // ---------------------------------------------------------------- the profile table

  /** The `identification` part of a profile: sheet names to look for, whole and as substrings. */
  datatype Identification = Identification(name: string, includes: seq<string>, subIncludes: seq<string>)

  /** `tp.profiles`, of which only the identification matters here. */
  const Profiles: seq<Identification> := [Identification("TP", ["WS", "WD", "MS", "MD"], ["BS", "BD", "GS", "GD"])]

  /** The only profile the parser knows. */
  predicate Known(profile: Option<string>) {
    profile == Some("TP")
  }

  /** The `draw_byes` table: the byes of 12, 24 and 48 player draws. */
  const DrawByesTable: map<int, seq<int>> := map[
    12 := [1, 4, 9, 12],
    24 := [1, 6, 7, 12, 13, 18, 19, 24],
    48 := [1, 6, 7, 12, 13, 18, 19, 24, 25, 30, 31, 36, 37, 42, 43, 48]]

  /** `includes(list, elements)`: some element is in the list; with no element the seedless `reduce` throws. */
  function Includes(list: seq<string>, elements: seq<string>): (r: Result<bool>)
    ensures r.Err? <==> elements == []
    ensures r.Ok? ==> (r.value <==> exists i :: 0 <= i < |elements| && elements[i] in list)
  {
    if elements == [] then Err("TypeError: Reduce of empty array with no initial value")
    else if |elements| == 1 then Ok(elements[0] in list)
    else
      var rest := Includes(list, elements[1..]);
      assert forall i :: 1 <= i < |elements| ==> elements[i] == elements[1..][i - 1];
      Ok(elements[0] in list || rest.value)
  }

  /** `includes(name, elements)` on a string: some element is a substring of the name. */
  function IncludesText(name: string, elements: seq<string>): (r: Result<bool>)
    ensures r.Err? <==> elements == []
    ensures r.Ok? ==> (r.value <==> exists i :: 0 <= i < |elements| && Contains(name, elements[i]))
  {
    if elements == [] then Err("TypeError: Reduce of empty array with no initial value")
    else if |elements| == 1 then Ok(Contains(name, elements[0]))
    else
      var rest := IncludesText(name, elements[1..]);
      assert forall i :: 1 <= i < |elements| ==> elements[i] == elements[1..][i - 1];
      Ok(Contains(name, elements[0]) || rest.value)
  }

  /** `subInclude(list, elements)`: some name of the list contains some element; an empty list throws. */
  function SubInclude(list: seq<string>, elements: seq<string>): (r: Result<bool>)
    ensures r.Err? <==> list == [] || elements == []
    ensures r.Ok? ==> (r.value <==> exists i, j :: 0 <= i < |list| && 0 <= j < |elements| && Contains(list[i], elements[j]))
  {
    if list == [] || elements == [] then Err("TypeError: Reduce of empty array with no initial value")
    else
      var here := IncludesText(list[0], elements).value;
      if |list| == 1 then Ok(here)
      else
        var rest := SubInclude(list[1..], elements);
        assert forall i :: 1 <= i < |list| ==> list[i] == list[1..][i - 1];
        Ok(here || rest.value)
  }

  /** Where `setWorkbookProfile` leaves `tp.profile`, and whether it threw on the way. */
  datatype Outcome = Outcome(profile: Option<string>, threw: bool)

  /** One turn of the `forEach` over the profiles: each test that succeeds assigns the profile's name. */
  function IdentifyStep(names: seq<string>, p: Identification, current: Option<string>): Outcome {
    match Includes(names, p.includes)
    case Err(_) => Outcome(current, true)
    case Ok(whole) =>
      var afterWhole := if whole then Some(p.name) else current;
      match SubInclude(names, p.subIncludes)
      case Err(_) => Outcome(afterWhole, true)
      case Ok(part) => Outcome(if part then Some(p.name) else afterWhole, false)
  }

  /** The profile after the turns for `ps`: the last profile that identifies the workbook wins. */
  function Identify(names: seq<string>, ps: seq<Identification>, start: Option<string>): Outcome {
    if ps == [] then Outcome(start, false)
    else
      var before := Identify(names, ps[..|ps| - 1], start);
      if before.threw then before else IdentifyStep(names, ps[|ps| - 1], before.profile)
  }

  /**
   * The parser's state: `tp.profile` and the module-level `draw_byes` table,
   * which `addByes` overwrites for the draw size it meets.
   */
  class Parser {
    var profile: Option<string>
    var drawByes: map<int, seq<int>>

    constructor ()
      ensures profile == None && drawByes == DrawByesTable
    {
      profile := None;
      drawByes := DrawByesTable;
    }

    /** `tp.setWorkbookProfile`: returns false when the identification throws (a workbook without sheets). */
    method SetWorkbookProfile(sheetNames: seq<string>) returns (ok: bool)
      modifies this
      ensures profile == Identify(sheetNames, Profiles, old(profile)).profile
      ensures ok == !Identify(sheetNames, Profiles, old(profile)).threw
      ensures drawByes == old(drawByes)
    {
      var start := profile;
      ok := true;
      for i := 0 to |Profiles|
        invariant Identify(sheetNames, Profiles[..i], start) == Outcome(profile, !ok)
        invariant drawByes == old(drawByes)
      {
        assert Profiles[..i + 1][..i] == Profiles[..i];
        if !ok { continue; }
        var p := Profiles[i];
        var whole := Includes(sheetNames, p.includes);
        if whole.Err? {
          ok := false;
          continue;
        }
        if whole.value { profile := Some(p.name); }
        var part := SubInclude(sheetNames, p.subIncludes);
        if part.Err? {
          ok := false;
          continue;
        }
        if part.value { profile := Some(p.name); }
      }
      assert Profiles[..|Profiles|] == Profiles;
    }

    /** `draw_byes[n]`: the byes of a draw of n players, if the table has them. */
    function Byes(n: int): Option<seq<int>>
      reads this
    {
      if n in drawByes then Some(drawByes[n]) else None
    }

    /**
     * `addByes(rounds, players)`: without a profile the rounds are dropped;
     * otherwise the bye table entry for this draw size is emptied (the TP
     * profile has no `add_byes` routine) and the rounds are kept.
     */
    method AddByes(rounds: seq<seq<LR.LMatch>>, playerCount: nat) returns (r: seq<seq<LR.LMatch>>)
      modifies this
      ensures profile == old(profile)
      ensures !Known(profile) ==> r == [] && drawByes == old(drawByes)
      ensures Known(profile) ==> r == rounds && drawByes == old(drawByes)[playerCount := []]
    {
      if !Known(profile) {
        return [];
      }
      drawByes := drawByes[playerCount := []];
      r := rounds;
    }

    /** `add1stRound(rounds, players)`, with the bye table as it now stands. */
    method AddFirstRound(rounds: seq<seq<LR.LMatch>>, players: seq<LegacyPlayer>) returns (r: seq<seq<LR.LMatch>>)
      ensures r == LR.AddFirstRound(rounds, players, Byes(|players|))
    {
      var winners := LR.AllWinners(rounds);
      var byes := Byes(|players|);
      var entrants := Filter(players, p => LR.IsEntrant(winners, byes, p));
      var dps := Unique(LR.DrawPositions(entrants));
      r := rounds + [LR.EntryMatches(dps)];
    }

    /**
     * `tp.tournamentDraw`: a round-robin sheet gives its group's matches; a
     * knockout sheet its rounds and played matches, with `addByes` emptying
     * the bye table's entry for the sheet's draw size when the profile is set.
     */
    method TournamentDraw(s: SheetInput) returns (r: Result<SheetDraw>)
      requires InStep(s)
      modifies this
      ensures profile == old(profile)
      ensures r == DrawOf(Known(old(profile)), old(drawByes), s)
      ensures drawByes == TableAfterDraw(Known(old(profile)), old(drawByes), s)
    {
      if LRR.IsRoundRobin(s.players) {
        var ms := LRR.RoundRobinLoop(GroupOf(s));
        if ms.Err? {
          return Err(ms.reason);
        }
        return Ok(RoundRobinDraw(ms.value, LD.RankOverride(Q5(s))));
      }
      var d := Knockout(KoInputOf(s), Q5(s));
      if d.Err? {
        return Err(d.reason);
      }
      r := Ok(KnockoutDraw(d.value));
    }

    /** The knockout branch of `tp.tournamentDraw`. */
    method Knockout(input: LD.KoInput, q5: string) returns (r: Result<LD.KoDraw>)
      modifies this
      ensures profile == old(profile)
      ensures r == LD.Knockout(Known(old(profile)), old(drawByes), input, q5)
      ensures drawByes == LD.TableAfter(Known(old(profile)), old(drawByes), input)
    {
      var scanned := LD.Scanned(input);
      var embedded := LR.FindEmbeddedRounds(scanned);
      if embedded.Err? {
        return Err(embedded.reason);
      }
      var rounds := LD.MatchesOf(embedded.value.1) + embedded.value.0;
      if rounds == [] {
        LD.KnockoutNoRounds(Known(profile), drawByes, input, q5);
        return Ok(LD.KoDraw([], [], None));
      }
      LD.KnockoutSteps(Known(profile), drawByes, input, q5, rounds);
      var kept := AddByes(rounds, |input.players|);
      var entrants := LD.Entrants(input.players, LD.FirstRound(scanned));
      var withEntry := AddFirstRound(Reverse(kept), entrants);
      var built := LR.ConstructMatchUps(Filter(withEntry, LD.KeepsRound), input.players);
      assert built == LD.AnnotateRounds(rounds, Known(profile), drawByes, input.players, LD.FirstRound(scanned));
      if built.Err? {
        return Err(built.reason);
      }
      r := LD.Conclude(LD.Annotated(built.value), input.players, input.gender, q5);
    }
  }

  // ---------------------------------------------------------------- tp.tournamentDraw

  /**
   * What `tp.tournamentDraw` reads of one sheet: its name and cells, the
   * players and their rows as `drawPlayers` found them, and `getRoundData`
   * (for the round-robin and for the knockout reading), `tp.drawPosition`'s
   * normaliser and `normalizeScore`, which are outside this model.
   */
  datatype SheetInput = SheetInput(
    sheetName: string,
    sheet: Sheet,
    players: seq<LegacyPlayer>,
    playerRows: seq<int>,
    roundData: bool -> seq<LRR.RoundColumn>,
    nd: Normalizer,
    normalize: string -> string)

  /** `drawPlayers` keeps every row with its player. */
  predicate InStep(s: SheetInput) {
    |s.playerRows| <= |s.players|
  }

  /** The draw of a sheet: a knockout draw, or a round-robin group's matches with the rank override. */
  datatype SheetDraw = KnockoutDraw(draw: LD.KoDraw) | RoundRobinDraw(matches: seq<LRR.RrMatch>, rank: Option<nat>)

  function Gender(s: SheetInput): string {
    LD.SheetGender(s.sheetName, Value(Lookup(s.sheet, CellRef('A', 2))))
  }

  function Q5(s: SheetInput): string {
    Value(Lookup(s.sheet, CellRef('Q', 5)))
  }

  function ColumnReferences(rounds: seq<LRR.RoundColumn>): (r: seq<seq<CellRef>>)
    ensures |r| == |rounds| && forall i :: 0 <= i < |rounds| ==> r[i] == rounds[i].references
  {
    if rounds == [] then [] else [rounds[0].references] + ColumnReferences(rounds[1..])
  }

  function GroupOf(s: SheetInput): LRR.Group {
    LRR.Group(s.sheet, s.players, s.playerRows, s.roundData(true), s.normalize, Gender(s), LD.Qualifying(s.sheetName))
  }

  function KoInputOf(s: SheetInput): LD.KoInput {
    LD.KoInput(s.sheet, s.players, ColumnReferences(s.roundData(false)), s.nd, s.normalize, Gender(s))
  }

  /** The draw, from whether the profile is set and the bye table as it was. */
  function DrawOf(known: bool, table: map<int, seq<int>>, s: SheetInput): Result<SheetDraw>
    requires InStep(s)
  {
    if LRR.IsRoundRobin(s.players) then
      match LRR.RoundRobinMatches(GroupOf(s))
      case Err(e) => Err(e)
      case Ok(ms) => Ok(RoundRobinDraw(ms, LD.RankOverride(Q5(s))))
    else
      match LD.Knockout(known, table, KoInputOf(s), Q5(s))
      case Err(e) => Err(e)
      case Ok(d) => Ok(KnockoutDraw(d))
  }

  /** The bye table afterwards: only a knockout sheet can change it. */
  function TableAfterDraw(known: bool, table: map<int, seq<int>>, s: SheetInput): map<int, seq<int>> {
    if LRR.IsRoundRobin(s.players) then table else LD.TableAfter(known, table, KoInputOf(s))
  }

  /**
   * A sheet gives a round-robin draw exactly when some player has an
   * `rr_result`. Its matches then carry keys, one per match and no two
   * alike, each naming two of the sheet's players winner first. A knockout
   * draw's matches are its played matches, named.
   */
  lemma DrawKinds(known: bool, table: map<int, seq<int>>, s: SheetInput)
    requires InStep(s) && DrawOf(known, table, s).Ok?
    ensures DrawOf(known, table, s).value.RoundRobinDraw? <==> LRR.IsRoundRobin(s.players)
    ensures var d := DrawOf(known, table, s).value;
      d.RoundRobinDraw? ==> exists hash :: LRR.Keyed(s.players, Gender(s), LRR.RrState(hash, d.matches))
    ensures var d := DrawOf(known, table, s).value;
      d.KnockoutDraw? ==>
        && |d.draw.matches| == |LD.PlayedMatches(BaseRounds(d.draw.rounds, LD.Unnamed))|
        && (forall k :: 0 <= k < |d.draw.matches| ==>
             d.draw.matches[k].m == LD.PlayedMatches(BaseRounds(d.draw.rounds, LD.Unnamed))[k] && LD.NamedAs(d.draw.matches[k], s.players, Gender(s)))
        && d.draw.matches == NamedIn(Flatten(d.draw.rounds))
  {
    if LRR.IsRoundRobin(s.players) {
      var g := GroupOf(s);
      LRR.RoundRobinMatchesKeyed(g);
      var st := LRR.RunRows(g, |g.playerRows|).value;
      assert LRR.Keyed(s.players, Gender(s), LRR.RrState(st.hash, st.matches));
    } else {
      var input := KoInputOf(s);
      LD.KnockoutMatches(LD.Annotate(known, table, input).value, s.players, Gender(s), Q5(s));
    }
  }

  /** Once a draw size's byes are emptied, only the positions that won nothing enter the first round. */
  lemma ByesEmptiedAdmitAll(table: map<int, seq<int>>, rounds: seq<seq<LR.LMatch>>, players: seq<LegacyPlayer>)
    ensures var t := table[|players| := []];
      LR.AddFirstRound(rounds, players, if |players| in t then Some(t[|players|]) else None) == LR.AddFirstRound(rounds, players, None)
  {
    LR.AddFirstRoundEmptyByes(rounds, players);
  }

  /** A workbook with a "WS", "WD", "MS" or "MD" sheet, or a sheet named with "BS", "BD", "GS" or "GD" in it, is a TP workbook; otherwise the profile stays as it was. */
  lemma IdentifyTP(names: seq<string>, start: Option<string>)
    requires names != []
    ensures var o := Identify(names, Profiles, start);
      && !o.threw
      && (o.profile == Some("TP") <==>
            start == Some("TP") ||
            (exists i :: 0 <= i < 4 && ["WS", "WD", "MS", "MD"][i] in names) ||
            (exists i, j :: 0 <= i < |names| && 0 <= j < 4 && Contains(names[i], ["BS", "BD", "GS", "GD"][j])))
      && (o.profile != Some("TP") ==> o.profile == start)
  {
    assert Profiles[..0] == [];
  }

  /** A workbook without sheets makes the identification throw before any profile is assigned. */
  lemma IdentifyNoSheets(start: Option<string>)
    ensures Identify([], Profiles, start) == Outcome(start, true)
  {
    assert Profiles[..0] == [];
  }

  // ---------------------------------------------------------------- header and round columns

  /** The attribute names of the column map. */
  datatype Attr = Position | Rank | Players | Country | Rounds | Id | Entry | Club

  /** The profile's `columns`. */
  const DefaultColumns: map<Attr, char> := map[Position := 'A', Rank := 'C', Players := 'E', Country := 'D', Rounds := 'F']

  /** The profile's `header_columns`: an attribute and the header text that locates its column. */
  const HeaderDefs: seq<(Attr, string)> := [(Id, "Member ID"), (Attr.Entry, "St."), (Club, "Club"), (Country, "Cnty"), (Rank, "Rank"), (Players, "Round 1")]

  /** `findValueRefs(text, sheet)[0]`: the first key whose normalised value is the text. */
  function FirstRefWithValue(sheet: Sheet, text: string): Option<CellRef> {
    var i := IndexOf(Values(Texts(sheet)), text);
    if i >= 0 then Some(sheet[i].ref) else None
  }

  /** The column of the first cell holding each header text, if any. */
  function FoundColumns(sheet: Sheet, defs: seq<(Attr, string)>): (r: seq<Option<char>>)
    ensures |r| == |defs|
    ensures forall i :: 0 <= i < |defs| ==>
      r[i] == (var ref := FirstRefWithValue(sheet, defs[i].1); if ref.Some? then Some(ref.value.col) else None)
  {
    if defs == [] then []
    else
      var ref := FirstRefWithValue(sheet, defs[0].1);
      [if ref.Some? then Some(ref.value.col) else None] + FoundColumns(sheet, defs[1..])
  }

  /** The `forEach` over the header definitions: a header found on the sheet sets its attribute's column. */
  function ApplyHeaders(columns: map<Attr, char>, defs: seq<(Attr, string)>, found: seq<Option<char>>): map<Attr, char>
    requires |found| == |defs|
    decreases defs
  {
    if defs == [] then columns
    else ApplyHeaders(if found[0].Some? then columns[defs[0].0 := found[0].value] else columns, defs[1..], found[1..])
  }

  /** `tp.headerColumns({sheet})`: no columns without a profile. */
  function HeaderColumns(sheet: Sheet, profile: Option<string>): map<Attr, char> {
    if !Known(profile) then map[] else ApplyHeaders(DefaultColumns, HeaderDefs, FoundColumns(sheet, HeaderDefs))
  }

  predicate DistinctAttrs(defs: seq<(Attr, string)>) {
    forall i, j :: 0 <= i < j < |defs| ==> defs[i].0 != defs[j].0
  }

  /** A definition whose header was found sets its attribute, and nothing later changes it again. */
  lemma {:induction false} ApplyHeadersAt(columns: map<Attr, char>, defs: seq<(Attr, string)>, found: seq<Option<char>>, k: nat)
    requires |found| == |defs| && DistinctAttrs(defs) && k < |defs| && found[k].Some?
    decreases defs
    ensures var r := ApplyHeaders(columns, defs, found);
      defs[k].0 in r && r[defs[k].0] == found[k].value
  {
    var next := if found[0].Some? then columns[defs[0].0 := found[0].value] else columns;
    if k == 0 {
      ApplyHeadersUntouched(next, defs[1..], found[1..], defs[0].0);
    } else {
      ApplyHeadersAt(next, defs[1..], found[1..], k - 1);
    }
  }

  /** An attribute no found definition names keeps the column it had. */
  lemma {:induction false} ApplyHeadersUntouched(columns: map<Attr, char>, defs: seq<(Attr, string)>, found: seq<Option<char>>, attr: Attr)
    requires |found| == |defs|
    requires forall i :: 0 <= i < |defs| && defs[i].0 == attr ==> found[i].None?
    decreases defs
    ensures var r := ApplyHeaders(columns, defs, found);
      (attr in r <==> attr in columns) && (attr in columns ==> r[attr] == columns[attr])
  {
    if defs != [] {
      var next := if found[0].Some? then columns[defs[0].0 := found[0].value] else columns;
      assert forall i :: 0 <= i < |defs[1..]| ==> defs[1..][i] == defs[i + 1] && found[1..][i] == found[i + 1];
      ApplyHeadersUntouched(next, defs[1..], found[1..], attr);
    }
  }

  lemma HeaderDefsDistinct()
    ensures DistinctAttrs(HeaderDefs)
  {
  }

  /**
   * With the profile, Players is the column of the first "Round 1" cell when
   * there is one and column E otherwise; likewise Rank ("Rank", else C),
   * Country ("Cnty", else D), Id, Entry and Club (only when their header
   * is found). Without the profile there are no columns.
   */
  lemma HeaderColumnsFound(sheet: Sheet, profile: Option<string>, k: nat)
    requires k < |HeaderDefs|
    ensures !Known(profile) ==> HeaderColumns(sheet, profile) == map[]
    ensures Known(profile) ==>
      var r := HeaderColumns(sheet, profile);
      var attr := HeaderDefs[k].0;
      var ref := FirstRefWithValue(sheet, HeaderDefs[k].1);
      && (ref.Some? ==> attr in r && r[attr] == ref.value.col)
      && (ref.None? ==>
            && (attr in r <==> attr in DefaultColumns)
            && (attr in DefaultColumns ==> r[attr] == DefaultColumns[attr]))
  {
    if Known(profile) {
      var found := FoundColumns(sheet, HeaderDefs);
      HeaderDefsDistinct();
      if found[k].Some? {
        ApplyHeadersAt(DefaultColumns, HeaderDefs, found, k);
      } else {
        ApplyHeadersUntouched(DefaultColumns, HeaderDefs, found, HeaderDefs[k].0);
      }
    }
  }

  /** No header definition names Position or Rounds. */
  lemma HeaderDefsSkipFixed()
    ensures forall i :: 0 <= i < |HeaderDefs| ==> HeaderDefs[i].0 != Position && HeaderDefs[i].0 != Rounds
  {
  }

  /** An attribute that no definition names keeps its column, whatever was found. */
  lemma ApplyHeadersUnnamed(columns: map<Attr, char>, defs: seq<(Attr, string)>, found: seq<Option<char>>, attr: Attr)
    requires |found| == |defs|
    requires forall i :: 0 <= i < |defs| ==> defs[i].0 != attr
    ensures var r := ApplyHeaders(columns, defs, found);
      (attr in r <==> attr in columns) && (attr in columns ==> r[attr] == columns[attr])
  {
    ApplyHeadersUntouched(columns, defs, found, attr);
  }

  /** With the profile, Position is always column A and Rounds column F: no header definition names them. */
  lemma HeaderColumnsFixed(sheet: Sheet, profile: Option<string>)
    requires Known(profile)
    ensures var r := HeaderColumns(sheet, profile);
      Position in r && r[Position] == 'A' && Rounds in r && r[Rounds] == 'F'
  {
    var found := FoundColumns(sheet, HeaderDefs);
    HeaderDefsSkipFixed();
    DefaultFixed();
    ApplyHeadersUnnamed(DefaultColumns, HeaderDefs, found, Position);
    ApplyHeadersUnnamed(DefaultColumns, HeaderDefs, found, Rounds);
  }

  lemma DefaultFixed()
    ensures Position in DefaultColumns && DefaultColumns[Position] == 'A'
    ensures Rounds in DefaultColumns && DefaultColumns[Rounds] == 'F'
  {
  }

  /** `letterValue(c)`: `parseInt(c, 36) - 9`, so A (or a) is 1; undefined (NaN) for a character that is no base-36 digit. */
  function LetterValue(c: char): Option<int> {
    if 'A' <= c <= 'Z' then Some(c as int - 'A' as int + 1)
    else if 'a' <= c <= 'z' then Some(c as int - 'a' as int + 1)
    else if '0' <= c <= '9' then Some(c as int - '0' as int - 9)
    else None
  }

  /** The profile's `rows.header`. */
  const HeaderRow: nat := 4

  /** A key of the header row at or right of the rounds column F. */
  predicate IsRoundHeader(ref: CellRef) {
    ref.row == HeaderRow && LetterValue(ref.col).Some? && LetterValue(ref.col).value >= 6
  }

  function Cols(refs: seq<CellRef>): (r: seq<char>)
    ensures |r| == |refs| && forall i :: 0 <= i < |refs| ==> r[i] == refs[i].col
  {
    if refs == [] then [] else [refs[0].col] + Cols(refs[1..])
  }

  function CharCode(c: char): int { c as int }

  /**
   * `tp.roundColumns({sheet})`: the distinct columns of the header-row keys from
   * column F on, sorted. (`key.length === 2` holds for every single-letter key
   * of row 4.)
   */
  function RoundColumns(sheet: Sheet, profile: Option<string>): seq<char> {
    if !Known(profile) then []
    else SortBy(Unique(Cols(Filter(Refs(sheet), IsRoundHeader))), CharCode)
  }

  /** Sorting keeps the members. */
  lemma SortByMembers(u: seq<char>, c: char)
    ensures c in SortBy(u, CharCode) <==> c in u
  {
    var r := SortBy(u, CharCode);
    assert c in r <==> c in multiset(r);
    assert c in u <==> c in multiset(u);
  }

  predicate Increasing(s: seq<char>) {
    forall i, j :: 0 <= i < j < |s| ==> s[i] < s[j]
  }

  /** In a sorted permutation of a list without duplicates, an earlier entry is smaller. */
  lemma SortedPair(u: seq<char>, r: seq<char>, i: nat, j: nat)
    requires NoDup(u) && multiset(r) == multiset(u) && SortedBy(r, CharCode) && i < j < |r|
    ensures r[i] < r[j]
  {
    DistinctPair(u, r, i, j);
    assert CharCode(r[i]) <= CharCode(r[j]);
  }

  /** Sorting a list without duplicates by character code leaves it strictly increasing. */
  lemma SortedDistinct(u: seq<char>)
    requires NoDup(u)
    ensures Increasing(SortBy(u, CharCode))
  {
    var r := SortBy(u, CharCode);
    forall i: nat, j: nat | i < j < |r| ensures r[i] < r[j] {
      SortedPair(u, r, i, j);
    }
  }

  /** The round columns come in strictly increasing order. */
  lemma RoundColumnsOrdered(sheet: Sheet, profile: Option<string>)
    requires Known(profile)
    ensures Increasing(RoundColumns(sheet, profile))
  {
    var u := Unique(Cols(Filter(Refs(sheet), IsRoundHeader)));
    assert RoundColumns(sheet, profile) == SortBy(u, CharCode);
    SortedDistinct(u);
  }

  /** A column is a round column exactly when some key of the header row lies in it at or right of F. */
  lemma RoundColumnsMembers(sheet: Sheet, profile: Option<string>, c: char)
    requires Known(profile)
    ensures c in RoundColumns(sheet, profile) <==>
      exists ref :: ref in Refs(sheet) && ref.col == c && IsRoundHeader(ref)
  {
    var kept := Filter(Refs(sheet), IsRoundHeader);
    SortByMembers(Unique(Cols(kept)), c);
    if c in Unique(Cols(kept)) {
      UniqueFrom(Cols(kept), c);
      var ref := ColsFrom(kept, c);
      FilterMembers(Refs(sheet), IsRoundHeader, ref);
    }
    if exists ref :: ref in Refs(sheet) && ref.col == c && IsRoundHeader(ref) {
      var ref :| ref in Refs(sheet) && ref.col == c && IsRoundHeader(ref);
      FilterMembers(Refs(sheet), IsRoundHeader, ref);
      ColsMember(kept, ref);
      UniqueMember(Cols(kept), c);
    }
  }

  lemma ColsFrom(refs: seq<CellRef>, c: char) returns (ref: CellRef)
    requires c in Cols(refs)
    ensures ref in refs && ref.col == c
  {
    var q :| 0 <= q < |refs| && Cols(refs)[q] == c;
    ref := refs[q];
  }

  lemma ColsMember(refs: seq<CellRef>, ref: CellRef)
    requires ref in refs
    ensures ref.col in Cols(refs)
  {
    var q :| 0 <= q < |refs| && refs[q] == ref;
    assert Cols(refs)[q] == ref.col;
  }


  // ---------------------------------------------------------------- findGaps

  /** `cellsContaining({sheet, term})`: the keys whose value contains the term, ignoring case. */
  function ContainingRefs(sheet: Sheet, term: string): (r: seq<CellRef>)
    ensures forall x :: x in r ==> exists i :: 0 <= i < |sheet| && sheet[i].ref == x && Contains(ToLower(sheet[i].text), ToLower(term))
  {
    if sheet == [] then []
    else
      var rest := ContainingRefs(sheet[1..], term);
      assert forall i :: 1 <= i < |sheet| ==> sheet[i] == sheet[1..][i - 1];
      (if Contains(ToLower(sheet[0].text), ToLower(term)) then [sheet[0].ref] else []) + rest
  }

  /** `findGaps({sheet, term})` of the legacy parser. */
  method FindGaps(sheet: Sheet, term: string) returns (gaps: seq<(int, int)>)
    ensures gaps == G.GapsOf([0] + Unique(Rows(ContainingRefs(sheet, term))))
    ensures forall i :: 0 <= i < |gaps| ==> gaps[i].1 - gaps[i].0 > 3
  {
    gaps := G.FindGaps(Rows(ContainingRefs(sheet, term)));
    G.GapsAreWide([0] + Unique(Rows(ContainingRefs(sheet, term))));
  }
}
