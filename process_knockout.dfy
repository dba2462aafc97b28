/**
 * `processKnockOut`: turning a knockout sheet's constructed draw into a draw
 * record. That means the rows to avoid around headers and footers, the
 * participant entries with their seed and position assignments, an id derived
 * from the draw's content, and one TODS matchUp per matchUp. There are two
 * versions of the routine: the legacy one, with its own `getEntries` and a
 * 0-based `winningSide`, and the structured one, with a 1-based `winningSide`,
 * a `-M` suffix on matchUp ids and a `structureId`.
 */
module ProcessKnockOut {
  import opened Common
  import opened Objects

  datatype Variant = Legacy | Structured

  // ---------------------------------------------------------------- header and footer rows

  /** A row definition of the profile; `rows` is how many rows a header or footer spans. */
  datatype RowDefinition = RowDefinition(rows: Option<int>)

  /** `definition.rows || 0` */
  function Span(definition: Option<RowDefinition>): int {
    match definition
    case None => 0
    case Some(d) => if d.rows.Some? then d.rows.value else 0
  }

  /** `rows.map(row => generateRange(row, row + span))` */
  function Bands(rows: seq<int>, span: int): (r: seq<seq<int>>)
    ensures |r| == |rows|
    ensures forall i :: 0 <= i < |rows| ==> r[i] == Range(rows[i], rows[i] + span)
  {
    seq(|rows|, i requires 0 <= i < |rows| => Range(rows[i], rows[i] + span))
  }

  /** `[].concat(...rows.map(row => generateRange(row, row + span)))` */
  function RowRanges(rows: seq<int>, span: int): seq<int> {
    Flatten(Bands(rows, span))
  }

  /**
   * The avoid rows: a range of `span` rows from each header row, then from each
   * footer row. A missing definition is dereferenced only when it has matched rows.
   */
  function AvoidRows(headerRows: seq<int>, header: Option<RowDefinition>, footerRows: seq<int>, footer: Option<RowDefinition>): Result<seq<int>> {
    if headerRows != [] && header.None? then Err("TypeError: headerRowDefinition is undefined")
    else if footerRows != [] && footer.None? then Err("TypeError: footerRowDefinition is undefined")
    else Ok(RowRanges(headerRows, Span(header)) + RowRanges(footerRows, Span(footer)))
  }

  /** The rows one band list covers: those within `span` rows from one of its rows. */
  lemma RowRangesMembers(rows: seq<int>, span: int, x: int)
    ensures x in RowRanges(rows, span) <==> exists i :: 0 <= i < |rows| && rows[i] <= x < rows[i] + span
  {
    var ranges := Bands(rows, span);
    InFlatten(ranges, x);
    if x in Flatten(ranges) {
      var i :| 0 <= i < |ranges| && x in ranges[i];
      InRange(rows[i], rows[i] + span, x);
    } else {
      forall i | 0 <= i < |rows| ensures !(rows[i] <= x < rows[i] + span) {
        InRange(rows[i], rows[i] + span, x);
      }
    }
  }

  /** Flattening lists that all have length n gives n elements per list. */
  lemma {:induction false} FlattenUniform(ss: seq<seq<int>>, n: nat)
    requires forall i :: 0 <= i < |ss| ==> |ss[i]| == n
    ensures |Flatten(ss)| == |ss| * n
  {
    if ss != [] {
      FlattenUniform(ss[1..], n);
    }
  }

  /** Each matched row contributes exactly `span` rows (none for a span below 1). */
  lemma RowRangesLength(rows: seq<int>, span: int)
    ensures |RowRanges(rows, span)| == |rows| * (if span > 0 then span else 0)
  {
    FlattenUniform(Bands(rows, span), if span > 0 then span else 0);
  }

  /**
   * The avoid rows fail only when a definition is missing for matched rows;
   * otherwise they hold `span` rows per header row and per footer row, and a
   * row is avoided exactly when it lies within the span of a header or footer row.
   */
  lemma AvoidRowsShape(headerRows: seq<int>, header: Option<RowDefinition>, footerRows: seq<int>, footer: Option<RowDefinition>, x: int)
    ensures AvoidRows(headerRows, header, footerRows, footer).Err? <==> (headerRows != [] && header.None?) || (footerRows != [] && footer.None?)
    ensures AvoidRows(headerRows, header, footerRows, footer).Ok? ==>
      var avoid := AvoidRows(headerRows, header, footerRows, footer).value;
      var hs, fs := Span(header), Span(footer);
      && |avoid| == |headerRows| * (if hs > 0 then hs else 0) + |footerRows| * (if fs > 0 then fs else 0)
      && (x in avoid <==>
           || (exists i :: 0 <= i < |headerRows| && headerRows[i] <= x < headerRows[i] + hs)
           || (exists i :: 0 <= i < |footerRows| && footerRows[i] <= x < footerRows[i] + fs))
  {
    RowRangesMembers(headerRows, Span(header), x);
    RowRangesMembers(footerRows, Span(footer), x);
    RowRangesLength(headerRows, Span(header));
    RowRangesLength(footerRows, Span(footer));
  }

  // ---------------------------------------------------------------- matchUps and entries

  datatype Player = Player(id: string, drawPosition: int, seed: int)

  /** A matchUp of the constructed draw, as far as processing reads and writes it. */
  datatype MatchUp = MatchUp(
    drawPositions: seq<int>,
    winners: seq<Player>,
    losers: seq<Player>,
    result: Option<string>,
    winningDrawPosition: Option<int>,
    event: Option<InfoValue>)

  /** A value of drawInfo: a string, or anything else (numbers, objects, lists). */
  datatype InfoValue = Text(text: string) | Other

  type DrawInfo = Object<InfoValue>

  datatype Assignment = Assignment(drawPosition: int, seedNumber: int)
  datatype SeedAssignment = SeedAssignment(participantId: string, seedNumber: int)
  datatype PositionAssignment = PositionAssignment(participantId: string, drawPosition: int)
  datatype Entries = Entries(entries: seq<string>, seedAssignments: seq<SeedAssignment>, positionAssignments: seq<PositionAssignment>)

  function SeedOf(a: SeedAssignment): int { a.seedNumber }
  function PositionOf(a: PositionAssignment): int { a.drawPosition }

  /** `side.map(player => player.id)` */
  function IdsOf(side: seq<Player>): seq<string> {
    seq(|side|, i requires 0 <= i < |side| => side[i].id)
  }

  /** `getSideParticipant`'s id: the side's player ids, sorted and joined with '-'. */
  function SideId(side: seq<Player>): string {
    Join(SortStrings(IdsOf(side)), "-")
  }

  /** A side's id does not depend on the order of its players. */
  lemma SideIdOrderFree(a: seq<Player>, b: seq<Player>)
    requires multiset(IdsOf(a)) == multiset(IdsOf(b))
    ensures SideId(a) == SideId(b)
  {
    SortStringsOrderFree(IdsOf(a), IdsOf(b));
  }

  /** `[matchUp.winners, matchUp.losers]` for every matchUp, flattened one level. */
  function Sides(matchUps: seq<MatchUp>): seq<seq<Player>> {
    Flatten(seq(|matchUps|, i requires 0 <= i < |matchUps| => [matchUps[i].winners, matchUps[i].losers]))
  }

  predicate HasEmptySide(sides: seq<seq<Player>>) {
    exists i :: 0 <= i < |sides| && sides[i] == []
  }

  /** `getSideParticipant` on every side: its id with the first player's position and seed. */
  function Participants(sides: seq<seq<Player>>): seq<(string, Assignment)>
    requires !HasEmptySide(sides)
  {
    seq(|sides|, i requires 0 <= i < |sides| && sides[i] != [] =>
      (SideId(sides[i]), Assignment(sides[i][0].drawPosition, sides[i][0].seed)))
  }

  /** `Object.assign({}, ...participants)`: each id once, with the last assignment given to it. */
  function ParticipantsMap(sides: seq<seq<Player>>): Object<Assignment>
    requires !HasEmptySide(sides)
  {
    AssignAll([], Participants(sides))
  }

  /** The seed assignments in key order: `Object.keys(participantsMap).map(...)` before the sort. */
  function SeedList(map_: Object<Assignment>): seq<SeedAssignment> {
    seq(|map_|, i requires 0 <= i < |map_| => SeedAssignment(map_[i].0, map_[i].1.seedNumber))
  }

  /** The position assignments in key order, before the sort. */
  function PositionList(map_: Object<Assignment>): seq<PositionAssignment> {
    seq(|map_|, i requires 0 <= i < |map_| => PositionAssignment(map_[i].0, map_[i].1.drawPosition))
  }

  /** The entries, seed assignments and position assignments of a participants map, in the order of its keys. */
  function EntriesOf(map_: Object<Assignment>): Entries {
    Entries(Keys(map_), SortBy(SeedList(map_), SeedOf), SortBy(PositionList(map_), PositionOf))
  }

  /** The legacy `getEntries`; `getSideParticipant` dereferences the first player of every side. */
  function GetEntries(matchUps: seq<MatchUp>): (r: Result<Entries>)
    ensures r.Err? <==> HasEmptySide(Sides(matchUps))
  {
    var sides := Sides(matchUps);
    if HasEmptySide(sides) then Err("TypeError: side[0] is undefined")
    else Ok(EntriesOf(ParticipantsMap(sides)))
  }

  /** The assignment the last side with the given id carries. */
  function LastAssignment(sides: seq<seq<Player>>, id: string): Assignment
    requires !HasEmptySide(sides)
  {
    var a := LastFor(Participants(sides), id);
    if a.Some? then a.value else Assignment(0, 0)
  }

  /** The participants' ids are the sides' ids. */
  lemma ParticipantIds(sides: seq<seq<Player>>, id: string)
    requires !HasEmptySide(sides)
    ensures (exists i :: 0 <= i < |sides| && Participants(sides)[i].0 == id) <==> exists i :: 0 <= i < |sides| && SideId(sides[i]) == id
  {
    var ps := Participants(sides);
    assert forall i :: 0 <= i < |sides| ==> ps[i].0 == SideId(sides[i]);
  }

  /** There is exactly one entry per distinct side id. */
  lemma EntriesKeys(sides: seq<seq<Player>>, id: string)
    requires !HasEmptySide(sides)
    ensures var e := EntriesOf(ParticipantsMap(sides));
      && NoDup(e.entries)
      && (id in e.entries <==> exists i :: 0 <= i < |sides| && SideId(sides[i]) == id)
  {
    AssignAllKeys([], Participants(sides), id);
    ParticipantIds(sides, id);
  }

  /** Each key of the participants map holds the last assignment given to it. */
  lemma EntriesValues(sides: seq<seq<Player>>)
    requires !HasEmptySide(sides)
    ensures var map_ := ParticipantsMap(sides);
      forall i :: 0 <= i < |map_| ==> map_[i].1 == LastAssignment(sides, map_[i].0)
  {
    var map_ := ParticipantsMap(sides);
    AssignAllKeys([], Participants(sides), "");
    forall i | 0 <= i < |map_| ensures map_[i].1 == LastAssignment(sides, map_[i].0) {
      GetAt(map_, i);
      AssignAllGet([], Participants(sides), map_[i].0);
    }
  }

  /**
   * The seed assignments are the entries' seeds sorted by seed: one per
   * entry, each the seed of the last side with the entry's id.
   */
  lemma EntriesSeeds(sides: seq<seq<Player>>)
    requires !HasEmptySide(sides)
    ensures var map_ := ParticipantsMap(sides);
      var e := EntriesOf(map_);
      && SortedBy(e.seedAssignments, SeedOf)
      && multiset(e.seedAssignments) == multiset(SeedList(map_))
      && |SeedList(map_)| == |e.entries|
      && forall i :: 0 <= i < |e.entries| ==> SeedList(map_)[i] == SeedAssignment(e.entries[i], LastAssignment(sides, e.entries[i]).seedNumber)
  {
    EntriesValues(sides);
  }

  /**
   * The position assignments are the entries' positions sorted by position:
   * one per entry, each the position of the last side with the entry's id.
   */
  lemma EntriesPositions(sides: seq<seq<Player>>)
    requires !HasEmptySide(sides)
    ensures var map_ := ParticipantsMap(sides);
      var e := EntriesOf(map_);
      && SortedBy(e.positionAssignments, PositionOf)
      && multiset(e.positionAssignments) == multiset(PositionList(map_))
      && |PositionList(map_)| == |e.entries|
      && forall i :: 0 <= i < |e.entries| ==> PositionList(map_)[i] == PositionAssignment(e.entries[i], LastAssignment(sides, e.entries[i]).drawPosition)
  {
    EntriesValues(sides);
  }

  // ---------------------------------------------------------------- the draw id

  /** `Object.values(drawInfo).filter(v => typeof v === 'string')` */
  function TextsOf(values: seq<InfoValue>): seq<string> {
    if values == [] then [] else (if values[0].Text? then [values[0].text] else []) + TextsOf(values[1..])
  }

  /** Every string in the values occurs as often among their texts. */
  lemma {:induction false} TextsOfCount(values: seq<InfoValue>, s: string)
    ensures multiset(TextsOf(values))[s] == multiset(values)[Text(s)]
  {
    if values != [] {
      TextsOfCount(values[1..], s);
      var head: seq<string> := if values[0].Text? then [values[0].text] else [];
      assert TextsOf(values) == head + TextsOf(values[1..]);
      assert multiset(head)[s] == multiset([values[0]])[Text(s)];
      assert values == [values[0]] + values[1..];
      assert multiset(values) == multiset([values[0]]) + multiset(values[1..]);
    }
  }

  /** The sizes as `String(n)` renders them. */
  function SizeTexts(sizes: seq<nat>): seq<string> {
    seq(|sizes|, i requires 0 <= i < |sizes| => NatToString(sizes[i]))
  }

  /** `sizes.concat(...strings).sort().join('')` */
  function Fodder(sizes: seq<nat>, info: DrawInfo): string {
    Join(SortStrings(SizeTexts(sizes) + TextsOf(Values(info))), "")
  }

  /** The fodder depends on the drawInfo values only, not on the order of its keys. */
  lemma FodderOrderFree(sizes: seq<nat>, info: DrawInfo, info': DrawInfo)
    requires multiset(Values(info)) == multiset(Values(info'))
    ensures Fodder(sizes, info) == Fodder(sizes, info')
  {
    var a, b := TextsOf(Values(info)), TextsOf(Values(info'));
    forall s ensures multiset(a)[s] == multiset(b)[s] {
      TextsOfCount(Values(info), s);
      TextsOfCount(Values(info'), s);
    }
    assert multiset(a) == multiset(b);
    SortStringsOrderFree(SizeTexts(sizes) + a, SizeTexts(sizes) + b);
  }

  // ---------------------------------------------------------------- TODS matchUps

  datatype TodsMatchUp = TodsMatchUp(matchUpId: string, drawPositions: seq<int>, score: Option<string>, winningSide: int)

  /** `drawPositions.join('')` */
  function Joined(positions: seq<int>): string {
    Join(seq(|positions|, i requires 0 <= i < |positions| => IntToString(positions[i])), "")
  }

  /** `drawPositions.indexOf(matchUp.winningDrawPosition) + 1`, 0 when it is undefined. */
  function WinningSide(positions: seq<int>, winning: Option<int>): int {
    if winning.None? then 0 else IndexOf(positions, winning.value) + 1
  }

  /** The legacy form dereferences the first winner, which fails without one. */
  predicate Fails(v: Variant, m: MatchUp) {
    v.Legacy? && m.winners == []
  }

  /**
   * The TODS form of one matchUp. It is used only for matchUps that do not
   * fail; the -1 for a legacy matchUp without winners stands for the
   * dereference that fails.
   */
  function TodsOf(v: Variant, drawId: string, m: MatchUp): TodsMatchUp {
    var positions := SortInts(m.drawPositions);
    match v
    case Legacy =>
      TodsMatchUp(drawId + "-" + Joined(positions), positions, m.result, if m.winners == [] then -1 else IndexOf(positions, m.winners[0].drawPosition))
    case Structured =>
      TodsMatchUp(drawId + "-" + Joined(positions) + "-M", positions, m.result, WinningSide(positions, m.winningDrawPosition))
  }

  /**
   * A TODS matchUp holds the matchUp's positions in ascending order, keeps its
   * score, and its id is the draw id, a dash and the sorted positions written
   * one after the other, with `-M` after them in the structured form.
   */
  lemma TodsShape(v: Variant, drawId: string, m: MatchUp)
    requires !Fails(v, m)
    ensures var t := TodsOf(v, drawId, m);
      && (forall i, j :: 0 <= i < j < |t.drawPositions| ==> t.drawPositions[i] <= t.drawPositions[j])
      && multiset(t.drawPositions) == multiset(m.drawPositions)
      && t.score == m.result
      && t.matchUpId == drawId + "-" + Joined(t.drawPositions) + (if v.Structured? then "-M" else "")
  {
  }

  /**
   * The TODS form does not depend on the order in which the matchUp lists its
   * positions: two matchUps with the same positions get the same id and the
   * same position list.
   */
  lemma TodsOrderFree(v: Variant, drawId: string, m: MatchUp, m': MatchUp)
    requires multiset(m.drawPositions) == multiset(m'.drawPositions)
    ensures TodsOf(v, drawId, m).drawPositions == TodsOf(v, drawId, m').drawPositions
    ensures TodsOf(v, drawId, m).matchUpId == TodsOf(v, drawId, m').matchUpId
  {
    SortIntsOrderFree(m.drawPositions, m'.drawPositions);
  }

  /** The index of a position among the sorted positions: -1 exactly when the matchUp does not hold it. */
  lemma SortedIndex(positions: seq<int>, w: int)
    ensures var i := IndexOf(SortInts(positions), w);
      && -1 <= i < |positions|
      && (i == -1 <==> w !in positions)
      && (i >= 0 ==> SortInts(positions)[i] == w)
  {
    var sorted := SortInts(positions);
    assert w in sorted <==> w in multiset(sorted);
    assert w in positions <==> w in multiset(positions);
  }

  /** The legacy `winningSide` is the 0-based index of the first winner's position, or -1 when that position is not the matchUp's. */
  lemma LegacyWinningSide(drawId: string, m: MatchUp)
    requires m.winners != []
    ensures var t := TodsOf(Legacy, drawId, m);
      var w := m.winners[0].drawPosition;
      && -1 <= t.winningSide < |t.drawPositions|
      && (t.winningSide == -1 <==> w !in m.drawPositions)
      && (t.winningSide >= 0 ==> t.drawPositions[t.winningSide] == w)
  {
    SortedIndex(m.drawPositions, m.winners[0].drawPosition);
  }

  /** The structured `winningSide` is 1-based, and 0 when the winning position is absent or not the matchUp's. */
  lemma StructuredWinningSide(drawId: string, m: MatchUp)
    ensures var t := TodsOf(Structured, drawId, m);
      && 0 <= t.winningSide <= |t.drawPositions|
      && (t.winningSide == 0 <==> m.winningDrawPosition.None? || m.winningDrawPosition.value !in m.drawPositions)
      && (t.winningSide > 0 ==> t.drawPositions[t.winningSide - 1] == m.winningDrawPosition.value)
  {
    var t := TodsOf(Structured, drawId, m);
    var sorted := SortInts(m.drawPositions);
    assert t.drawPositions == sorted && t.winningSide == WinningSide(sorted, m.winningDrawPosition);
    if m.winningDrawPosition.Some? {
      var w := m.winningDrawPosition.value;
      var i := IndexOf(sorted, w);
      assert t.winningSide == i + 1;
      SortedIndex(m.drawPositions, w);
      assert i == -1 <==> w !in m.drawPositions;
    }
  }

  predicate AnyFails(v: Variant, matchUps: seq<MatchUp>) {
    exists i :: 0 <= i < |matchUps| && Fails(v, matchUps[i])
  }

  /** `xs.map(f)` where f throws on the elements `fails` picks: the first of them stops the map. */
  function MapUntil<A, B>(xs: seq<A>, fails: A -> bool, f: A -> B, reason: string): Result<seq<B>> {
    if xs == [] then Ok([])
    else
      match MapUntil(xs[..|xs| - 1], fails, f, reason)
      case Err(e) => Err(e)
      case Ok(done) => if fails(xs[|xs| - 1]) then Err(reason) else Ok(done + [f(xs[|xs| - 1])])
  }

  /** The map fails exactly when some element fails; otherwise it holds f of every element, in order. */
  lemma {:induction false} MapUntilShape<A, B>(xs: seq<A>, fails: A -> bool, f: A -> B, reason: string)
    ensures MapUntil(xs, fails, f, reason).Err? <==> exists i :: 0 <= i < |xs| && fails(xs[i])
    ensures MapUntil(xs, fails, f, reason).Ok? ==>
      var ys := MapUntil(xs, fails, f, reason).value;
      |ys| == |xs| && forall i :: 0 <= i < |xs| ==> ys[i] == f(xs[i])
  {
    if xs != [] {
      var init := xs[..|xs| - 1];
      MapUntilShape(init, fails, f, reason);
      if exists i :: 0 <= i < |init| && fails(init[i]) {
        var i :| 0 <= i < |init| && fails(init[i]);
        assert xs[i] == init[i];
      }
      if exists i :: 0 <= i < |xs| && fails(xs[i]) {
        var i :| 0 <= i < |xs| && fails(xs[i]);
        if i < |init| { assert init[i] == xs[i]; }
      }
      if MapUntil(xs, fails, f, reason).Ok? {
        var ys := MapUntil(xs, fails, f, reason).value;
        forall i | 0 <= i < |xs| ensures ys[i] == f(xs[i]) {
          if i < |init| { assert init[i] == xs[i]; }
        }
      }
    }
  }

  /** Once a prefix fails, the whole map fails with the same reason. */
  lemma {:induction false} MapUntilStops<A, B>(xs: seq<A>, fails: A -> bool, f: A -> B, reason: string, n: nat)
    requires n <= |xs| && MapUntil(xs[..n], fails, f, reason).Err?
    ensures MapUntil(xs, fails, f, reason) == MapUntil(xs[..n], fails, f, reason)
    decreases |xs| - n
  {
    if n < |xs| {
      assert xs[..n + 1][..n] == xs[..n];
      MapUntilStops(xs, fails, f, reason, n + 1);
    } else {
      assert xs[..n] == xs;
    }
  }

  /** Every matchUp in TODS form, in order, stopping at the first that fails. */
  function AllTods(v: Variant, drawId: string, matchUps: seq<MatchUp>): Result<seq<TodsMatchUp>> {
    MapUntil(matchUps, m => Fails(v, m), m => TodsOf(v, drawId, m), "TypeError: matchUp.winners[0] is undefined")
  }

  /** The TODS forms fail exactly when some matchUp fails; otherwise there is one per matchUp, in order. */
  lemma AllTodsShape(v: Variant, drawId: string, matchUps: seq<MatchUp>)
    ensures AllTods(v, drawId, matchUps).Err? <==> AnyFails(v, matchUps)
    ensures AllTods(v, drawId, matchUps).Ok? ==>
      var tods := AllTods(v, drawId, matchUps).value;
      |tods| == |matchUps| && forall i :: 0 <= i < |matchUps| ==> tods[i] == TodsOf(v, drawId, matchUps[i])
  {
    MapUntilShape(matchUps, m => Fails(v, m), m => TodsOf(v, drawId, m), "TypeError: matchUp.winners[0] is undefined");
  }

  // ---------------------------------------------------------------- the draw record

  datatype Structure = Structure(
    stage: Option<string>,
    structureId: Option<string>,
    stageSequence: nat,
    seedAssignments: seq<SeedAssignment>,
    positionAssignments: seq<PositionAssignment>,
    matchUps: seq<TodsMatchUp>,
    finishingPosition: string)

  /** The drawInfo after processing (its object-valued keys hold `Other`), the matchUps as processing leaves them, and the structure. */
  datatype Processed = Processed(drawInfo: DrawInfo, drawId: string, matchUps: seq<MatchUp>, structure: Structure, entries: Entries)

  function DrawFormat(isDoubles: bool): string {
    if isDoubles then "DOUBLES" else "SINGLES"
  }

  /** The stage as a drawInfo value; an undefined stage is no string. */
  function StageValue(stage: Option<string>): InfoValue {
    if stage.Some? then Text(stage.value) else Other
  }

  /** `${stage}` */
  function StageText(stage: Option<string>): string {
    if stage.Some? then stage.value else "undefined"
  }

  function Sizes(matchUps: seq<MatchUp>, e: Entries): seq<nat> {
    [|matchUps|, |e.entries|, |e.positionAssignments|, |e.seedAssignments|]
  }

  /** The legacy routine derives the entries itself; the structured one takes them from `getEntries`. */
  function EntriesFor(v: Variant, getEntries: seq<MatchUp> -> Entries, matchUps: seq<MatchUp>): Result<Entries> {
    if v.Legacy? then GetEntries(matchUps) else Ok(getEntries(matchUps))
  }

  /** drawInfo after `Object.assign(drawInfo, { drawFormat, stage })`, which sets the keys in that order. */
  function FormatInfo(info: DrawInfo, isDoubles: bool, stage: Option<string>): DrawInfo {
    Assign(Assign(info, "drawFormat", Text(DrawFormat(isDoubles))), "stage", StageValue(stage))
  }

  /** drawInfo after `Object.assign(drawInfo, { drawId, stage, matchUps, structures, entries })` */
  function RecordInfo(v: Variant, info: DrawInfo, drawId: string, stage: Option<string>): DrawInfo {
    var withId := Assign(Assign(info, "drawId", Text(drawId)), "stage", StageValue(stage));
    Assign(Assign(Assign(withId, "matchUps", Other), if v.Legacy? then "structures" else "structure", Other), "entries", Other)
  }

  /** A matchUp after the in-place sort of its positions and the final `event` assignment. */
  function Settled(m: MatchUp, event: Option<InfoValue>): MatchUp {
    m.(drawPositions := SortInts(m.drawPositions), event := event)
  }

  /** The draw id: the hash of the fodder once the format and the stage are in drawInfo. */
  function DrawId(info: DrawInfo, matchUps: seq<MatchUp>, e: Entries, stage: Option<string>, isDoubles: bool, hashId: string -> string): string {
    hashId(Fodder(Sizes(matchUps, e), FormatInfo(info, isDoubles, stage)))
  }

  /** `${hashId(structureIdFodder)}-S`, for the structured routine only. */
  function StructureId(v: Variant, fodder: string, stage: Option<string>, hashId: string -> string): Option<string> {
    if v.Structured? then Some(hashId(fodder + StageText(stage)) + "-S") else None
  }

  /** `matchUps.forEach(matchUp => matchUp.event = event)`, on matchUps whose positions were sorted in place. */
  function SettledAll(matchUps: seq<MatchUp>, event: Option<InfoValue>): seq<MatchUp> {
    seq(|matchUps|, i requires 0 <= i < |matchUps| => Settled(matchUps[i], event))
  }

  /** The draw record from drawInfo with the format and stage in, the draw id and the structure id. */
  function Assemble(v: Variant, formatted: DrawInfo, drawId: string, structureId: Option<string>, matchUps: seq<MatchUp>,
                    stage: Option<string>, e: Entries, tods: seq<TodsMatchUp>): Processed
  {
    var recorded := RecordInfo(v, formatted, drawId, stage);
    Processed(recorded, drawId, SettledAll(matchUps, Get(recorded, "event")),
              Structure(stage, structureId, 1, e.seedAssignments, e.positionAssignments, tods, "roundOutcome"), e)
  }

  /** The draw record once the entries and the TODS matchUps are known. */
  function Record(v: Variant, info: DrawInfo, matchUps: seq<MatchUp>, stage: Option<string>, isDoubles: bool,
                  hashId: string -> string, e: Entries, tods: seq<TodsMatchUp>): Processed
  {
    var formatted := FormatInfo(info, isDoubles, stage);
    var fodder := Fodder(Sizes(matchUps, e), formatted);
    Assemble(v, formatted, hashId(fodder), StructureId(v, fodder, stage, hashId), matchUps, stage, e, tods)
  }

  /** `processKnockOut` from the constructed draw on: `info` is what `extractInfo` gave. */
  function ProcessKnockOut(v: Variant, info: DrawInfo, matchUps: seq<MatchUp>, stage: Option<string>, isDoubles: bool,
                           hashId: string -> string, getEntries: seq<MatchUp> -> Entries): (r: Result<Processed>)
  {
    match EntriesFor(v, getEntries, matchUps)
    case Err(e) => Err(e)
    case Ok(e) =>
      match AllTods(v, DrawId(info, matchUps, e, stage, isDoubles, hashId), matchUps)
      case Err(reason) => Err(reason)
      case Ok(tods) => Ok(Record(v, info, matchUps, stage, isDoubles, hashId, e, tods))
  }

  /** The keys processing sets on drawInfo. */
  predicate SetKey(k: string) {
    k == "drawFormat" || k == "stage" || k == "drawId" || k == "matchUps" || k == "structures" || k == "structure" || k == "entries"
  }

  /** Assigning two keys in turn gives both their values and leaves every other key as it was. */
  lemma AssignTwo<V>(o: Object<V>, k1: string, v1: V, k2: string, v2: V, k: string)
    requires WellKeyed(o)
    ensures var d := Assign(Assign(o, k1, v1), k2, v2);
      && WellKeyed(d)
      && Get(d, k) == if k == k2 then Some(v2) else if k == k1 then Some(v1) else Get(o, k)
  {
    AssignKeys(o, k1, v1);
    AssignKeys(Assign(o, k1, v1), k2, v2);
    AssignGet(o, k1, v1, k);
    AssignGet(Assign(o, k1, v1), k2, v2, k);
  }

  /** drawInfo after the first `Object.assign`: the format and the stage are in, every other key keeps its value. */
  lemma FormatInfoShape(info: DrawInfo, isDoubles: bool, stage: Option<string>, k: string)
    requires WellKeyed(info)
    ensures var d := FormatInfo(info, isDoubles, stage);
      && WellKeyed(d)
      && Get(d, k) == if k == "stage" then Some(StageValue(stage))
                      else if k == "drawFormat" then Some(Text(if isDoubles then "DOUBLES" else "SINGLES"))
                      else Get(info, k)
  {
    AssignTwo(info, "drawFormat", Text(DrawFormat(isDoubles)), "stage", StageValue(stage), k);
  }

  /** drawInfo after the second `Object.assign`: the draw id and the stage are in, every key processing does not set keeps its value. */
  lemma RecordInfoShape(v: Variant, info: DrawInfo, drawId: string, stage: Option<string>, k: string)
    requires WellKeyed(info)
    ensures var d := RecordInfo(v, info, drawId, stage);
      && WellKeyed(d)
      && (k == "drawId" ==> Get(d, k) == Some(Text(drawId)))
      && (k == "stage" ==> Get(d, k) == Some(StageValue(stage)))
      && (!SetKey(k) || k == "drawFormat" ==> Get(d, k) == Get(info, k))
  {
    var withId := Assign(Assign(info, "drawId", Text(drawId)), "stage", StageValue(stage));
    var key := if v.Legacy? then "structures" else "structure";
    AssignTwo(info, "drawId", Text(drawId), "stage", StageValue(stage), k);
    AssignTwo(withId, "matchUps", Other, key, Other, k);
    AssignKeys(Assign(Assign(withId, "matchUps", Other), key, Other), "entries", Other);
    AssignGet(Assign(Assign(withId, "matchUps", Other), key, Other), "entries", Other, k);
  }

  /**
   * drawInfo after processing:
   * - it holds the draw format, the stage and the draw id;
   * - every key it had and processing does not set keeps its value;
   * - the draw id is the hash of the fodder of the sizes and the string
   *   values once format and stage are in.
   */
  lemma ProcessedInfo(v: Variant, info: DrawInfo, matchUps: seq<MatchUp>, stage: Option<string>, isDoubles: bool,
                      hashId: string -> string, e: Entries, tods: seq<TodsMatchUp>, k: string)
    requires WellKeyed(info)
    ensures var p := Record(v, info, matchUps, stage, isDoubles, hashId, e, tods);
      && WellKeyed(p.drawInfo)
      && Get(p.drawInfo, "drawFormat") == Some(Text(if isDoubles then "DOUBLES" else "SINGLES"))
      && Get(p.drawInfo, "stage") == Some(StageValue(stage))
      && Get(p.drawInfo, "drawId") == Some(Text(p.drawId))
      && (!SetKey(k) ==> Get(p.drawInfo, k) == Get(info, k))
      && p.drawId == DrawId(info, matchUps, e, stage, isDoubles, hashId)
  {
    var formatted := FormatInfo(info, isDoubles, stage);
    var drawId := DrawId(info, matchUps, e, stage, isDoubles, hashId);
    FormatInfoShape(info, isDoubles, stage, k);
    FormatInfoShape(info, isDoubles, stage, "drawFormat");
    RecordInfoShape(v, formatted, drawId, stage, k);
    RecordInfoShape(v, formatted, drawId, stage, "drawFormat");
    RecordInfoShape(v, formatted, drawId, stage, "drawId");
    RecordInfoShape(v, formatted, drawId, stage, "stage");
  }

  /** The assembled matchUps: one per matchUp, each with the drawInfo `event` and its positions sorted, the same ones its TODS matchUp holds. */
  lemma AssembledMatchUps(v: Variant, formatted: DrawInfo, drawId: string, structureId: Option<string>, matchUps: seq<MatchUp>,
                          stage: Option<string>, e: Entries, tods: seq<TodsMatchUp>)
    requires WellKeyed(formatted)
    requires |tods| == |matchUps| && forall i :: 0 <= i < |matchUps| ==> tods[i].drawPositions == SortInts(matchUps[i].drawPositions)
    ensures var p := Assemble(v, formatted, drawId, structureId, matchUps, stage, e, tods);
      && |p.matchUps| == |matchUps| == |p.structure.matchUps|
      && (forall i :: 0 <= i < |matchUps| ==>
            && p.matchUps[i].event == Get(formatted, "event")
            && p.matchUps[i].drawPositions == p.structure.matchUps[i].drawPositions
            && multiset(p.matchUps[i].drawPositions) == multiset(matchUps[i].drawPositions)
            && p.matchUps[i].winners == matchUps[i].winners && p.matchUps[i].result == matchUps[i].result)
  {
    RecordInfoShape(v, formatted, drawId, stage, "event");
  }

  /**
   * The matchUps after processing:
   * - there is one processed matchUp per matchUp;
   * - each carries the drawInfo `event`;
   * - each holds its positions sorted, the same ones the TODS matchUp holds,
   *   since the sort happens in place.
   */
  lemma RecordMatchUps(v: Variant, info: DrawInfo, matchUps: seq<MatchUp>, stage: Option<string>, isDoubles: bool,
                       hashId: string -> string, e: Entries, tods: seq<TodsMatchUp>)
    requires WellKeyed(info)
    requires |tods| == |matchUps| && forall i :: 0 <= i < |matchUps| ==> tods[i].drawPositions == SortInts(matchUps[i].drawPositions)
    ensures var p := Record(v, info, matchUps, stage, isDoubles, hashId, e, tods);
      && |p.matchUps| == |matchUps| == |p.structure.matchUps|
      && (forall i :: 0 <= i < |matchUps| ==>
            && p.matchUps[i].event == Get(info, "event")
            && p.matchUps[i].drawPositions == p.structure.matchUps[i].drawPositions
            && multiset(p.matchUps[i].drawPositions) == multiset(matchUps[i].drawPositions)
            && p.matchUps[i].winners == matchUps[i].winners && p.matchUps[i].result == matchUps[i].result)
  {
    var formatted := FormatInfo(info, isDoubles, stage);
    var fodder := Fodder(Sizes(matchUps, e), formatted);
    FormatInfoShape(info, isDoubles, stage, "event");
    AssembledMatchUps(v, formatted, hashId(fodder), StructureId(v, fodder, stage, hashId), matchUps, stage, e, tods);
  }

  /** Only the structured routine gives the structure an id: the hash of the fodder and the stage, with "-S" appended. */
  lemma RecordStructureId(v: Variant, info: DrawInfo, matchUps: seq<MatchUp>, stage: Option<string>, isDoubles: bool,
                          hashId: string -> string, e: Entries, tods: seq<TodsMatchUp>)
    ensures var p := Record(v, info, matchUps, stage, isDoubles, hashId, e, tods);
      && p.structure.matchUps == tods
      && (v.Structured? <==> p.structure.structureId.Some?)
      && (v.Structured? ==>
            p.structure.structureId.value == hashId(Fodder(Sizes(matchUps, e), FormatInfo(info, isDoubles, stage)) + StageText(stage)) + "-S")
  {
  }

  /** Processing fails only in the legacy routine, for a side without players or a matchUp without winners. */
  lemma ProcessErrors(v: Variant, info: DrawInfo, matchUps: seq<MatchUp>, stage: Option<string>, isDoubles: bool,
                      hashId: string -> string, getEntries: seq<MatchUp> -> Entries)
    ensures ProcessKnockOut(v, info, matchUps, stage, isDoubles, hashId, getEntries).Err? <==>
      v.Legacy? && (HasEmptySide(Sides(matchUps)) || AnyFails(v, matchUps))
  {
    var e := EntriesFor(v, getEntries, matchUps);
    if e.Ok? {
      AllTodsShape(v, DrawId(info, matchUps, e.value, stage, isDoubles, hashId), matchUps);
    }
  }

  /** A successful run is the record of its entries and its TODS matchUps. */
  lemma ProcessedIsRecord(v: Variant, info: DrawInfo, matchUps: seq<MatchUp>, stage: Option<string>, isDoubles: bool,
                          hashId: string -> string, getEntries: seq<MatchUp> -> Entries)
    requires ProcessKnockOut(v, info, matchUps, stage, isDoubles, hashId, getEntries).Ok?
    ensures var e := EntriesFor(v, getEntries, matchUps);
      && e.Ok?
      && var drawId := DrawId(info, matchUps, e.value, stage, isDoubles, hashId);
      && AllTods(v, drawId, matchUps).Ok?
      && ProcessKnockOut(v, info, matchUps, stage, isDoubles, hashId, getEntries).value
         == Record(v, info, matchUps, stage, isDoubles, hashId, e.value, AllTods(v, drawId, matchUps).value)
  {
  }

  /** The record keeps the TODS matchUps, settles every matchUp with the drawInfo `event` and sets the drawInfo keys. */
  lemma RecordShape(v: Variant, info: DrawInfo, matchUps: seq<MatchUp>, stage: Option<string>, isDoubles: bool,
                    hashId: string -> string, e: Entries, tods: seq<TodsMatchUp>, k: string)
    requires WellKeyed(info)
    ensures var p := Record(v, info, matchUps, stage, isDoubles, hashId, e, tods);
      && p.entries == e
      && p.drawId == DrawId(info, matchUps, e, stage, isDoubles, hashId)
      && p.structure.matchUps == tods
      && p.matchUps == SettledAll(matchUps, Get(info, "event"))
      && Get(p.drawInfo, "drawFormat") == Some(Text(if isDoubles then "DOUBLES" else "SINGLES"))
      && Get(p.drawInfo, "stage") == Some(StageValue(stage))
      && Get(p.drawInfo, "drawId") == Some(Text(p.drawId))
      && (!SetKey(k) ==> Get(p.drawInfo, k) == Get(info, k))
  {
    ProcessedInfo(v, info, matchUps, stage, isDoubles, hashId, e, tods, k);
    RecordParts(v, info, matchUps, stage, isDoubles, hashId, e, tods);
  }

  /** The record keeps the entries and the TODS matchUps, and settles the matchUps with the drawInfo `event`. */
  lemma RecordParts(v: Variant, info: DrawInfo, matchUps: seq<MatchUp>, stage: Option<string>, isDoubles: bool,
                    hashId: string -> string, e: Entries, tods: seq<TodsMatchUp>)
    requires WellKeyed(info)
    ensures var p := Record(v, info, matchUps, stage, isDoubles, hashId, e, tods);
      && p.entries == e
      && p.structure.matchUps == tods
      && p.matchUps == SettledAll(matchUps, Get(info, "event"))
  {
    RecordEvent(v, info, isDoubles, stage, hashId(Fodder(Sizes(matchUps, e), FormatInfo(info, isDoubles, stage))));
  }

  /** Processing sets no `event` key: the recorded drawInfo has the event of the extracted one. */
  lemma RecordEvent(v: Variant, info: DrawInfo, isDoubles: bool, stage: Option<string>, drawId: string)
    requires WellKeyed(info)
    ensures Get(RecordInfo(v, FormatInfo(info, isDoubles, stage), drawId, stage), "event") == Get(info, "event")
  {
    FormatInfoShape(info, isDoubles, stage, "event");
    RecordInfoShape(v, FormatInfo(info, isDoubles, stage), drawId, stage, "event");
  }

  /**
   * What a successful run produces:
   * - the entries of the routine's variant;
   * - the draw id hashed from the fodder;
   * - one TODS matchUp per matchUp, in order;
   * - the matchUps with their positions sorted and the drawInfo `event`;
   * - drawInfo with the format, the stage and the draw id in, and every key
   *   processing does not set unchanged.
   */
  lemma ProcessedShape(v: Variant, info: DrawInfo, matchUps: seq<MatchUp>, stage: Option<string>, isDoubles: bool,
                       hashId: string -> string, getEntries: seq<MatchUp> -> Entries, k: string)
    requires WellKeyed(info)
    requires ProcessKnockOut(v, info, matchUps, stage, isDoubles, hashId, getEntries).Ok?
    ensures var p := ProcessKnockOut(v, info, matchUps, stage, isDoubles, hashId, getEntries).value;
      && EntriesFor(v, getEntries, matchUps) == Ok(p.entries)
      && p.drawId == DrawId(info, matchUps, p.entries, stage, isDoubles, hashId)
      && |p.structure.matchUps| == |matchUps| == |p.matchUps|
      && (forall i :: 0 <= i < |matchUps| ==> p.structure.matchUps[i] == TodsOf(v, p.drawId, matchUps[i]))
      && (forall i :: 0 <= i < |matchUps| ==> p.matchUps[i] == Settled(matchUps[i], Get(info, "event")))
      && Get(p.drawInfo, "drawFormat") == Some(Text(if isDoubles then "DOUBLES" else "SINGLES"))
      && Get(p.drawInfo, "stage") == Some(StageValue(stage))
      && Get(p.drawInfo, "drawId") == Some(Text(p.drawId))
      && (!SetKey(k) ==> Get(p.drawInfo, k) == Get(info, k))
  {
    ProcessedIsRecord(v, info, matchUps, stage, isDoubles, hashId, getEntries);
    var e := EntriesFor(v, getEntries, matchUps).value;
    var drawId := DrawId(info, matchUps, e, stage, isDoubles, hashId);
    AllTodsShape(v, drawId, matchUps);
    RecordShape(v, info, matchUps, stage, isDoubles, hashId, e, AllTods(v, drawId, matchUps).value, k);
  }

  // ---------------------------------------------------------------- the routine, step by step

  /** The first loop: the TODS form of every matchUp, with its positions sorted in place. */
  method TodsLoop(v: Variant, drawId: string, matchUps: seq<MatchUp>) returns (r: Result<seq<TodsMatchUp>>)
    ensures r == AllTods(v, drawId, matchUps)
  {
    var fails, build := m => Fails(v, m), m => TodsOf(v, drawId, m);
    var reason := "TypeError: matchUp.winners[0] is undefined";
    var tods: seq<TodsMatchUp> := [];
    for i := 0 to |matchUps|
      invariant MapUntil(matchUps[..i], fails, build, reason) == Ok(tods)
    {
      assert matchUps[..i + 1][..i] == matchUps[..i];
      if Fails(v, matchUps[i]) {
        MapUntilStops(matchUps, fails, build, reason, i + 1);
        return Err(reason);
      }
      tods := tods + [TodsOf(v, drawId, matchUps[i])];
    }
    assert matchUps[..|matchUps|] == matchUps;
    r := Ok(tods);
  }

  /** `matchUps.forEach(matchUp => matchUp.event = drawInfo.event)`, on matchUps whose positions were sorted in place. */
  method SetEvents(matchUps: seq<MatchUp>, event: Option<InfoValue>) returns (r: seq<MatchUp>)
    ensures |r| == |matchUps|
    ensures forall i :: 0 <= i < |r| ==> r[i] == Settled(matchUps[i], event)
  {
    r := [];
    for i := 0 to |matchUps|
      invariant |r| == i
      invariant forall j :: 0 <= j < i ==> r[j] == Settled(matchUps[j], event)
    {
      r := r + [Settled(matchUps[i], event)];
    }
  }

  /** The end of the routine: the second `Object.assign` into drawInfo and the `event` loop. */
  method Finish(v: Variant, info: DrawInfo, matchUps: seq<MatchUp>, stage: Option<string>, isDoubles: bool,
                hashId: string -> string, e: Entries, tods: seq<TodsMatchUp>) returns (p: Processed)
    ensures p == Record(v, info, matchUps, stage, isDoubles, hashId, e, tods)
  {
    var drawInfo := FormatInfo(info, isDoubles, stage);
    var fodder := Fodder(Sizes(matchUps, e), drawInfo);
    var drawId := hashId(fodder);
    var structureId := StructureId(v, fodder, stage, hashId);
    drawInfo := RecordInfo(v, drawInfo, drawId, stage);
    var settled := SetEvents(matchUps, Get(drawInfo, "event"));
    assert settled == SettledAll(matchUps, Get(drawInfo, "event"));
    p := Processed(drawInfo, drawId, settled,
                   Structure(stage, structureId, 1, e.seedAssignments, e.positionAssignments, tods, "roundOutcome"), e);
  }

  /** `processKnockOut` as the source runs it: the entries, the draw id, the TODS loop, then the record. */
  method Process(v: Variant, info: DrawInfo, matchUps: seq<MatchUp>, stage: Option<string>, isDoubles: bool,
                 hashId: string -> string, getEntries: seq<MatchUp> -> Entries) returns (r: Result<Processed>)
    ensures r == ProcessKnockOut(v, info, matchUps, stage, isDoubles, hashId, getEntries)
  {
    var e := EntriesFor(v, getEntries, matchUps);
    if e.Err? {
      return Err(e.reason);
    }
    var drawId := DrawId(info, matchUps, e.value, stage, isDoubles, hashId);
    var tods := TodsLoop(v, drawId, matchUps);
    if tods.Err? {
      return Err(tods.reason);
    }
    var p := Finish(v, info, matchUps, stage, isDoubles, hashId, e.value, tods.value);
    r := Ok(p);
  }
}
