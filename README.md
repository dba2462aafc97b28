# xlsx-draw-parser, modelled in Dafny

This project models the core of xlsx-draw-parser, a library that reads tennis tournament workbooks (draw sheets exported by national federations as XLSX) and turns them into tournament records: draws, players, participants and matchUps. The model works on the sparse cell map of a worksheet, whose keys are cell references and whose values are cell texts, and follows the parser from that map to the draw records.

The modules follow the program's structure:

- `Sheets`, `Objects` and `Common` hold the values the parser works on. They are the sheet's cell map, plain objects used as dictionaries with string keys, and the JavaScript string and sequence operations (`split`, `join`, `slice`, `indexOf`, sorting, de-duplication, lower-casing).
- `ColumnScan` is `columnMatches`. It reads one round column top to bottom and groups the cells naming participants into matches, with play-through winners becoming byes.
- `KnockOutConstruction` is `constructKnockOut`. It covers the power-of-two guard, the halving of the expected matchUps, the reversal of the rounds, the entry round and the final list of decided matchUps.
- `Slots` is the naming in place that both knockout builders share. They change the decided matchUps that sit in the returned rounds and return those same objects as a list. A round entry is the matchUp as built or its named form, and the list is read off the rounds.
- `Gaps` is `findGaps`, shared by the legacy parser and the participant-row selection.
- `ParticipantRows` is `getParticipantRows`. It covers the header and footer band, the skip words and skip expressions, the per-column row lists and their union, and the range cut to one gap.
- `RoundRobinParticipants` is `extractRoundRobinParticipants`. It covers the row classification loop, `extractPlayer`, `getWinnerIndex`, `extractMatchUps`, `playerByLastName` and the playoff matchUps.
- `ProcessKnockOut` covers both versions of `processKnockOut`. Each has its avoid rows, its entries with seed and position assignments, its id fodder and its TODS matchUps. The legacy version has a 0-based `winningSide`; the structured one has a 1-based `winningSide`, a `-M` suffix on matchUp ids and a `structureId`.
- `WorkbookTypes` is the table of workbook types as data, with `dateParser`, `genderParser` and the sheet-name matchers.
- `WorkbookParser` is the tournament `spreadSheetParser`: `identifyWorkbook`, the sheet filter, the `processSheet` dispatch and the `pushData` merge.
- `LegacyWorkbook` is the legacy `spreadSheetParser`: its `identifyWorkbook`, its sheet filter and dispatch, and `generateTournamentId`.
- `LegacyNames`, `LegacyScores`, `LegacyRounds`, `LegacyRoundRobin`, `LegacyDraw` and `LegacyParser` cover the legacy `tournamentParser`:
  - the name keys and the draw-position lookup;
  - `determineWinner` and `reverseScore`;
  - `getColumnMatchUps`, `findMiddle(s)`, `findEmbeddedRounds`, `add1stRound`, `addByes` and `constructMatchUps`;
  - the round-robin and knockout branches of `tp.tournamentDraw`;
  - the parser state `tp`, a class holding the profile and the bye table, with `setWorkbookProfile`, `headerColumns` and `roundColumns`.

Loops of the source are methods with loop invariants, proved against the functions that specify them. Each specification function comes with lemmas stating what the source promises about it.

## Model

| member | source | states |
|---|---|---|
| ColumnScan.ScanCell | src/functions/columnMatches.js:14-48 | One turn of the `forEach` on the scan's variables (names, matches, winners, last draw position, last row, occurrences) yields exactly one step of the fold `Step`. |
| ColumnScan.ColumnMatches | src/functions/columnMatches.js:5-53 | The loop over the column's references returns the fold `Scan`: started at the first row minus the offset, each reference one step, then the trailing bye and the index-key filter. |
| ColumnScan.IndexEntries | src/functions/columnMatches.js:52 | Mapping the sparse occurrence array keeps only entries with array-index keys; every entry kept comes from the table and has a draw position of 0 or more. |
| ColumnScan.IndexEntriesIndices | src/functions/columnMatches.js:52 | After the map and filter, each non-negative draw position keeps exactly its index list, and a negative one has none. |
| ColumnScan.IndexEntriesValid | src/functions/columnMatches.js:52 | The map and filter keep the occurrence table valid: ascending keys, non-empty and ascending index lists, no index under two keys. |
| ColumnScan.AddOccurrenceIndices | src/functions/columnMatches.js:19-20 | `round_occurrences[dp].push(index)` appends the index to the list of `dp` and leaves every other draw position's list as it was. |
| ColumnScan.AddOccurrenceShape | src/functions/columnMatches.js:43-44 | The push keeps the keys ascending and the entries non-empty, and adds no key other than `dp`. |
| ColumnScan.AddOccurrenceValid | src/functions/columnMatches.js:17-21 | Recording the index of the match about to be closed keeps the table valid, now over one more match. |
| ColumnScan.StepInv | src/functions/columnMatches.js:13-49 | One iteration keeps the loop invariant: pending winners without repetitions, closed winners groups without repetitions, no empty group closed by a row jump, and a valid occurrence table. |
| ColumnScan.RunInv | src/functions/columnMatches.js:13-49 | The invariant holds after any number of iterations. |
| ColumnScan.FinishWellFormed | src/functions/columnMatches.js:50-52 | The bye of leftover winners is added only when there are winners, so the result keeps the invariant's shape, the bye coming last. |
| ColumnScan.ScanWellFormed | src/functions/columnMatches.js:5-53 | Every scan result is well formed: winners lists never repeat a draw position, a bye is only the last match, no empty group is closed by a row jump or left as a bye, and each occurrence entry lists strictly increasing indices of matches of the result. |
| ColumnScan.StepContents | src/functions/columnMatches.js:28-48 | One step appends the cell's text to `names`; a resolved draw position joins the winners, and a cell that resolves to none adds its normalised text as the result of a scored match. |
| ColumnScan.RunNames | src/functions/columnMatches.js:29-32 | After the loop, `names` is the list of the column's cell texts in order. |
| ColumnScan.RunWinners | src/functions/columnMatches.js:33-38 | A draw position is among the closed or pending winners exactly when some cell resolves to it. |
| ColumnScan.RunScored | src/functions/columnMatches.js:39-47 | The scored matches carry, in order, the normalised texts of the cells that resolve to no draw position. |
| ColumnScan.RunContents | src/functions/columnMatches.js:13-49 | The three facts above together for any fresh starting state. |
| ColumnScan.ScanOccurrences | src/functions/columnMatches.js:14-52 | Match k is listed in `round_occurrences` under draw position d exactly when d is positive and was the last position any cell resolved to before match k was closed, by a row jump after a participant cell or by a score cell. The matches are these closings in order, then a bye exactly when the last cell names a participant. |
| ColumnScan.ScanContents | src/functions/columnMatches.js:5-53 | Nothing is lost or invented: a draw position is a winner in the result exactly when a cell resolves to it, and the scored results are the unresolved cells' normalised texts in order. |
| ColumnScan.NamesAreEarlierTexts | src/functions/columnMatches.js:29-33 | The `idx` handed to the lookup for a cell is the number of earlier cells of the column with the same text. |
| ColumnScan.ScanIgnoresOffset | src/functions/columnMatches.js:11-16 | The starting row offset never changes the result, because no winners are pending at the first cell; the doubles `rowOffset` has no effect. |
| ColumnScan.EndsInBye | src/functions/columnMatches.js:50-51 | A column whose last cell resolves to a draw position ends in a bye that holds that position. |
| ColumnScan.EndsInScore | src/functions/columnMatches.js:39-51 | A column whose last cell resolves to none ends in the scored match of that cell's normalised text, with no bye after it. |
| Gaps.NextGap | src/functions/drawStructures/getParticipantRows.js:224-232 | `nextGap(index)` stays within the list, ends where the next row does not follow the current one by 1, and every row from `index` to the result follows its predecessor by 1. |
| Gaps.NextGapAtRunEnd | src/functions/drawStructures/getParticipantRows.js:224-232 | At an index that already ends a run of consecutive rows, `nextGap` does not move. |
| Gaps.NextGapIndex | src/functions/drawStructures/getParticipantRows.js:224-232 | The `while` loop of `nextGap` returns `NextGap`. |
| Gaps.IndexPairs | src/functions/drawStructures/getParticipantRows.js:233-238 | Each pushed pair, by index, points at two rows of the instance list, and there is one per pair of the reference definition over the runs. |
| Gaps.IndexPairsShape | src/functions/drawStructures/getParticipantRows.js:233-238 | Every pushed pair joins the end of one run of consecutive rows, past the sentinel block, to the end of the run right after it. |
| Gaps.PairsLeftStart | src/functions/drawStructures/getParticipantRows.js:233 | Before the loop, with `gap_end = nextGap(0)`, what is left to push is every pair of the reference definition. |
| Gaps.LoopStep | src/functions/drawStructures/getParticipantRows.js:234-238 | One turn of the loop pushes `[instances[gap_start], instances[gap_end]]` when `gap_start` is truthy, and what is left afterwards completes the reference list. |
| Gaps.PairBlocks | src/functions/drawStructures/getParticipantRows.js:233-238 | The loop over the instance list pushes exactly the reference pairs `RunPairs`. |
| Gaps.FindGaps | src/functions/drawStructures/getParticipantRows.js:217-242 | `findGaps` returns the wide pairs of run ends of the term's rows, each row kept once and the sentinel 0 in front. |
| Gaps.GapsAreWide | src/functions/drawStructures/getParticipantRows.js:240 | Every gap spans more than three rows. |
| Gaps.GapsAreBlockEnds | src/functions/drawStructures/getParticipantRows.js:233-238 | Every pair pushed runs from the last row of one block of consecutive term rows to the last row of the next block, and never starts at the sentinel block. |
| ParticipantRows.CountsUpStep | src/functions/drawStructures/getParticipantRows.js:122-128 | A list extended by one value is 1, 2, ..., n+1 exactly when the list is 1, ..., n and the value is n+1. |
| ParticipantRows.DrawPositionsOrdered | src/functions/drawStructures/getParticipantRows.js:122-128 | The reduce with its counter says the draw positions are ordered exactly when the non-zero numbers of the position column, in row order, are 1, 2, 3, ... |
| ParticipantRows.ParticipantRowsOf | src/functions/drawStructures/getParticipantRows.js:11-215 | Without a profile the result is the empty selection; an error, from dereferencing an undefined gap, needs a profile with a draw gap rule. |
| ParticipantRows.GetParticipantRows | src/functions/drawStructures/getParticipantRows.js:11-215 | The routine with its ordering reduce and `findGaps` loops returns `ParticipantRowsOf`. |
| ParticipantRows.RowsWhereMembers | src/functions/drawStructures/getParticipantRows.js:83-120 | A row of a filtered list of keys is the row of a key the filters keep. |
| ParticipantRows.NamedRowsMembers | src/functions/drawStructures/getParticipantRows.js:68-107 | A name, club or id row is exactly the row of a cell inside the row band, matching no skip expression, in the target column, holding a non-empty string that equals no skip word ignoring case. |
| ParticipantRows.SortedDistinctInts | src/functions/drawStructures/getParticipantRows.js:171-174 | Sorting numerically a list without duplicates leaves it strictly increasing. |
| ParticipantRows.AllRowsShape | src/functions/drawStructures/getParticipantRows.js:148-174 | `allRows` is strictly increasing and holds exactly the rows of the eight sources. |
| ParticipantRows.RowsShape | src/functions/drawStructures/getParticipantRows.js:199-208 | The rows returned are ascending and are exactly those of `allRows` between the start and end row that are not avoided; a range is always returned. |
| ParticipantRows.FilterOrdered | src/functions/drawStructures/getParticipantRows.js:206-208 | Filtering keeps a strictly increasing list strictly increasing. |
| ParticipantRows.BandShape | src/functions/drawStructures/getParticipantRows.js:179-197 | With a draw gap rule, the finals come only with a result column and are player name rows inside the chosen gap; otherwise the draw rows are rows of `allRows` inside it; a round robin leaves the draw rows undefined. |
| ParticipantRows.FinalsShape | src/functions/drawStructures/getParticipantRows.js:209-212 | Defined finals are non-empty player name rows of a round robin sheet that lie inside the draw gap and are no row of `allRows`. |
| ParticipantRows.DrawGapsWide | src/functions/drawStructures/getParticipantRows.js:180 | Every gap of the draw term spans more than three rows. |
| Sheets.Lookup | src/functions/drawStructures/getParticipantRows.js:29 | `sheet[key]` finds a value exactly when the key is present, and the value is the one held there. |
| KnockOutConstruction.IsDoublesCases | src/functions/constructKnockOut.js:14 | A draw is doubles exactly when some draw position is held twice and none more often. |
| KnockOutConstruction.EmbeddedStep | src/functions/constructKnockOut.js:57-68 | One turn over the embedded matchUps, on the loop's variables, is `EmbeddedTurn`: expected matchUps halved, groupings and row ranges from the winners, the round pushed only if non-empty. |
| KnockOutConstruction.EmbeddedLoop | src/functions/constructKnockOut.js:55-69 | The `generateRange(0, embeddedMatchUpsCount)` loop performs one turn per embedded matchUp. |
| KnockOutConstruction.ColumnStep | src/functions/constructKnockOut.js:45-53 | A column's own round is pushed and the expectations follow it, as `ColumnRound` states. |
| KnockOutConstruction.RoundLoop | src/functions/constructKnockOut.js:32-70 | The loop over the round columns yields the fold `Columns` from the start state: half the distinct positions expected, grouped in pairs. |
| KnockOutConstruction.HalvePow2 | src/functions/constructKnockOut.js:50 | Halving n times divides by 2^n. |
| KnockOutConstruction.HalveShift | src/functions/constructKnockOut.js:63 | Halving once first, then n times, is halving n+1 times. |
| KnockOutConstruction.EmbeddedTurnsRounds | src/functions/constructKnockOut.js:57-68 | The embedded turns keep the rounds already pushed and push at most one non-empty round per turn. |
| KnockOutConstruction.EmbeddedTurnsExpected | src/functions/constructKnockOut.js:63 | Each embedded turn halves the expected matchUps and leaves `expectOutcomes` alone. |
| KnockOutConstruction.ColumnTurnShape | src/functions/constructKnockOut.js:32-70 | A column pushes its round right after the existing ones, then only non-empty embedded rounds; the expectation is halved once for the column and once per embedded matchUp; `expectOutcomes` becomes true once a column has all its outcomes. |
| KnockOutConstruction.ColumnsCount | src/functions/constructKnockOut.js:32-45 | Every column pushes at least one round; with no column nothing changes. |
| KnockOutConstruction.RoundWinnersMembers | src/functions/constructKnockOut.js:97 | A position is a winner of a round exactly when one of its matchUps lists it among its winners. |
| KnockOutConstruction.AllRoundWinnersMembers | src/functions/constructKnockOut.js:97 | A position is a winner of some round exactly when one round's winners include it. |
| KnockOutConstruction.AddEntryRoundShape | src/functions/constructKnockOut.js:96-106 | `addEntryRound` keeps the rounds and appends one `{players: [dp]}` per distinct draw position of a player that no round lists among its winners, each position once. |
| KnockOutConstruction.NameMatchUps | src/functions/constructKnockOut.js:88-89 | Naming the winners fails exactly when a decided matchUp has no `winners`; otherwise each matchUp gets the players holding its first winner and the gender. |
| KnockOutConstruction.Construct | src/functions/constructKnockOut.js:7-94 | `constructKnockOut` with its loop over the columns returns `ConstructKnockOut`. |
| KnockOutConstruction.InvalidSizeEmpty | src/functions/constructKnockOut.js:17-27 | When half the number of distinct draw positions is not a power of two, there is no round and no matchUp. |
| KnockOutConstruction.SixEntrantsEmpty | src/functions/constructKnockOut.js:17-27 | A six-entrant draw expects three matchUps, not a power of two, so it is empty. |
| KnockOutConstruction.UniqueOfDistinct | src/functions/constructKnockOut.js:12 | `unique` leaves a list without duplicates as it is. |
| KnockOutConstruction.NoColumnsEmpty | src/functions/constructKnockOut.js:72 | Without round columns there is no round and no matchUp. |
| KnockOutConstruction.ArrangedShape | src/functions/constructKnockOut.js:79-81 | The rounds handed on are the columns' rounds from the last back to the first, then the entry round built from them. |
| KnockOutConstruction.KnockOutMatchUps | src/functions/constructKnockOut.js:85-89 | The matchUps are, in order, the decided matchUps (losers and a non-empty result) of all rounds, each with the players at its first winner's position and the gender when there is one; no round means no matchUp. The returned rounds hold these named matchUps themselves, in place of the decided ones. |
| Slots.NamedInPlaced | src/functions/constructKnockOut.js:84-88 | After naming in place, the named entries of the rounds are, in order, the chosen matchUps of the joined rounds, each named; there are as many as there are chosen matchUps. |
| Slots.BaseRoundsPlaced | src/legacy/tournamentParser.js:731-734 | Naming in place changes no round's matchUps underneath the names: stripping the names gives back the rounds as built. |
| Slots.PlacedNamed | src/legacy/tournamentParser.js:731 | An entry of the rounds is named exactly when the matchUp underneath is a chosen one; both builders choose the matchUps with losers and a result. |
| LegacyNames.LastFirstIOfEmpty | src/legacy/tournamentParser.js:149-158 | The key of an empty name is empty. |
| LegacyNames.LastFirstICaseInsensitive | src/legacy/tournamentParser.js:149-158 | The key does not depend on letter case, since the name is lower-cased first. |
| LegacyNames.CommaKeyOfForm | src/legacy/tournamentParser.js:150-153 | For a trimmed comma-free last name and a first character that is neither space nor comma, the comma key of "last, c" is "last, c". |
| LegacyNames.KeyOfCommaForm | src/legacy/tournamentParser.js:149-153 | A lower-case "last, c" is its own `lastFirstI` key. |
| LegacyNames.LastFirstIIdempotent | src/legacy/tournamentParser.js:149-158 | For a name with a comma, abbreviating the key again changes nothing. |
| LegacyNames.ValueWithoutComma | src/legacy/tournamentParser.js:174-181 | `tp.value` of a cell without a comma is the trimmed text. |
| LegacyNames.JoinedCommasSpaced | src/legacy/tournamentParser.js:179 | Joining comma-free parts with ", " puts a space after every comma. |
| LegacyNames.RejoinCommasSpaced | src/legacy/tournamentParser.js:179 | After the split, trim and re-join, every comma is followed by a space. |
| LegacyNames.ValueCommasSpaced | src/legacy/tournamentParser.js:174-181 | Every comma of a normalised cell text is followed by a space, so ",," never survives `tp.value`. |
| LegacyNames.DrawPositionExact | src/legacy/tournamentParser.js:382-384 | With at least idx+1 exact matches on the diacritic-normalised full name, the position found is that of the match with exactly idx matches before it. |
| LegacyNames.FirstWithKey | src/legacy/tournamentParser.js:387 | The first participant whose "last, f" key matches is found, with no earlier participant matching. |
| LegacyNames.DrawPositionByKey | src/legacy/tournamentParser.js:385-389 | With too few exact matches, the position is that of the first participant with the same "last, f" key. |
| LegacyNames.DrawPositionNone | src/legacy/tournamentParser.js:382-390 | Nothing is found exactly when there are too few exact-name matches and no participant has the same key. |
| LegacyScores.TallyCounts | src/legacy/tournamentParser.js:566-572 | The tally fails exactly when a set has a '-' part without digits; otherwise it counts, per side, the sets the side won, a set going to side 0 only when its first number is strictly greater. |
| LegacyScores.DetermineWinnerCounts | src/legacy/tournamentParser.js:565-577 | `determineWinner` gives 0 when side 0 won more sets, 1 when side 1 did, and undefined on an equal count. |
| LegacyScores.Tiebreak | src/legacy/tournamentParser.js:581 | The tiebreak found is a "(digits)" text made of the set's own characters. |
| LegacyScores.ReverseSetMembers | src/legacy/tournamentParser.js:580-585 | A reversed set is made of the set's own characters. |
| LegacyScores.ReverseScoreSets | src/legacy/tournamentParser.js:579-587 | `reverseScore` keeps the separator and the number of sets: splitting its result gives exactly the reversed sets. |
| LegacyScores.ReverseSetPlain | src/legacy/tournamentParser.js:583 | A set without digits and without '(' passes through unchanged. |
| LegacyScores.ReverseCanonical | src/legacy/tournamentParser.js:580-585 | On a set with at most one trailing tiebreak, the text is reversed when it holds a digit and the tiebreak is re-appended. |
| LegacyScores.ReverseSetInvolution | src/legacy/tournamentParser.js:579-587 | Applying `reverseScore` twice to such a set gives it back. |
| LegacyScores.ReverseSwapsDigits | src/legacy/tournamentParser.js:580-585 | A set "a-b" of single digits, with an optional tiebreak, becomes "b-a" with the same tiebreak. |
| LegacyScores.ReverseStrictSet | src/legacy/tournamentParser.js:570-585 | Reversing a set of two different single digits hands it to the other side of the tally. |
| LegacyScores.TallyReversed | src/legacy/tournamentParser.js:566-572 | For such sets, the tally of the reversed sets is the tally with the sides exchanged. |
| LegacyScores.DetermineWinnerOfReversed | src/legacy/tournamentParser.js:565-587 | For scores of such sets, `determineWinner` of the reversed score names the other side, and an equal tally stays equal. |
| LegacyRounds.FindMiddleBalanced | src/legacy/tournamentParser.js:69 | The middle of an odd list is the element with as many elements before it as after it. |
| LegacyRounds.Level | src/legacy/tournamentParser.js:77-83 | One pass yields one middle per part and two halves per part. |
| LegacyRounds.Bisect | src/legacy/tournamentParser.js:77-83 | The `forEach` over the parts yields, in order, each part's middle and its two halves, as one bisection pass defines them. |
| LegacyRounds.FindMiddles | src/legacy/tournamentParser.js:70-88 | The loops give `[]` for an even list, otherwise the middles of the number-th bisection pass. |
| LegacyRounds.PassesCount | src/legacy/tournamentParser.js:74-86 | After n passes over p parts there are 2^(n-1)·p middles. |
| LegacyRounds.MiddlesCount | src/legacy/tournamentParser.js:70-88 | The number-th bisection of an odd list has 2^(number-1) middles. |
| LegacyRounds.FirstMiddle | src/legacy/tournamentParser.js:69-88 | The first bisection of an odd list finds its middle element. |
| LegacyRounds.SevenMatchColumn | src/legacy/tournamentParser.js:69-88 | For seven matches, the second pass finds the quarter points 1 and 5. The third pass slices by value, so it gives 0, 2, 5 and an undefined middle rather than 0, 2, 4, 6. |
| LegacyRounds.ClearResults | src/legacy/tournamentParser.js:486 | Clearing leaves the length unchanged. Exactly the matches at the listed indices lose their result, and every other match is unchanged. |
| LegacyRounds.Copies | src/legacy/tournamentParser.js:485 | The embedded round is a copy of the match at each middle index, in order. |
| LegacyRounds.ClearAt | src/legacy/tournamentParser.js:486 | The clearing loop computes the clearing function. |
| LegacyRounds.EmbedTurn | src/legacy/tournamentParser.js:483-487 | One turn of the loop computes one embedding step, including its failure on an undefined middle. |
| LegacyRounds.EmbedLevelsErr | src/legacy/tournamentParser.js:482-488 | Once a turn throws, the loop's outcome is that error. |
| LegacyRounds.EmbedRoundLoop | src/legacy/tournamentParser.js:477-491 | The loop over one round computes that round's embedding: the embedded rounds, then the round holding only the matches that kept a result. |
| LegacyRounds.EmbedRounds | src/legacy/tournamentParser.js:474-495 | The pass keeps the number of rounds. |
| LegacyRounds.EmbedRoundsErr | src/legacy/tournamentParser.js:476-493 | A round that throws stops the whole pass with its error. |
| LegacyRounds.FindEmbeddedRounds | src/legacy/tournamentParser.js:474-495 | `findEmbeddedRounds` returns the embedded rounds of every round in order and leaves each round filtered, as the pass over all rounds defines. |
| LegacyRounds.EmbedRoundPlain | src/legacy/tournamentParser.js:477-478 | A round where no draw position closed two matches embeds nothing and is left as it is. |
| LegacyRounds.EmbedRoundKeepsResults | src/legacy/tournamentParser.js:491 | Every match left in a bisected round has a result, and the round's occurrences are untouched. |
| LegacyRounds.EmbedLevelCopies | src/legacy/tournamentParser.js:483-486 | For an odd column, the i-th turn adds one embedded round of 2^(i-1) matches, each a copy of the match at a middle index. The rounds found before it are kept. |
| LegacyRounds.WinnersOf | src/legacy/tournamentParser.js:461-462 | A draw position is a winner of a round exactly when some match of the round lists it among its `winners`. |
| LegacyRounds.AllWinners | src/legacy/tournamentParser.js:461-462 | A draw position is among all winners exactly when it won in some round. |
| LegacyRounds.AddFirstRound | src/legacy/tournamentParser.js:460-472 | `add1stRound` appends one round and keeps the earlier rounds as they were. |
| LegacyRounds.EntryPositionsMembers | src/legacy/tournamentParser.js:463-468 | An entry position is exactly a draw position held by some player, won in no round and absent from the bye list. |
| LegacyRounds.AddFirstRoundEntrants | src/legacy/tournamentParser.js:460-472 | The appended round holds one `{players: [dp]}` per entry position, with no two alike. A position is there exactly when it enters the first round. |
| LegacyRounds.AddFirstRoundEmptyByes | src/legacy/tournamentParser.js:455-464 | A bye list emptied by `addByes` excludes nobody, the same as a missing list. |
| LegacyRounds.AnnotateRoundAt | src/legacy/tournamentParser.js:547-552 | A match that takes part is annotated with a counter equal to the number of matches before it that take part. Any other match is left alone. |
| LegacyRounds.AnnotateRoundKeeps | src/legacy/tournamentParser.js:547-552 | The annotation changes neither a match's players nor its result. |
| LegacyRounds.ConstructMatchUpsAt | src/legacy/tournamentParser.js:524-556 | When it succeeds, it keeps the number of rounds, and round i is round i annotated under the draw type. |
| LegacyRounds.ConstructMatchUpsFails | src/legacy/tournamentParser.js:526 | It fails only when there are no rounds, or when there are two finals and no round after them. |
| LegacyRounds.ConstructMatchUpsKeeps | src/legacy/tournamentParser.js:529-555 | Every round keeps its length, every match keeps its players and result, and the entry round is untouched. |
| LegacyRounds.ConstructMatchUpsKeepsByes | src/legacy/tournamentParser.js:532 | In the round before the entry round, a match with a bye is left as it was. |
| LegacyRounds.LoserNamesMembers | src/legacy/tournamentParser.js:551 | The loser names are the full names of exactly the players who hold the loser's draw position. |
| LegacyRounds.EliminatedMembers | src/legacy/tournamentParser.js:537-544 | A player is eliminated in a round exactly when they play in the next round out and not in this one. |
| LegacyRounds.ConstructMatchUpsInner | src/legacy/tournamentParser.js:534-552 | Away from the entry round and the round before it, the k-th match gets the round's name and is annotated as the k-th. |
| LegacyRounds.ConstructMatchUpsLosers | src/legacy/tournamentParser.js:544-551 | The k-th match's loser is the k-th eliminated player, or undefined when there are fewer. Its loser names are those of the players at that draw position. |
| LegacyRounds.ConstructMatchUpsQualifying | src/legacy/tournamentParser.js:549 | In a draw that is not a main draw, round i is named "Q" and then its index, with no number for index 0. |
| LegacyRounds.RoundNamesOfFiveRounds | src/legacy/tournamentParser.js:545-546 | A main draw of five rounds names them F, SF, QF, and then "R" followed by the number of draw positions. |
| LegacyRoundRobin.Seek | src/legacy/tournamentParser.js:558-563 | A found index is in range, its player holds the goal, and every player passed on the way holds another position. When nothing is found, no player from the start to the end of the list in that direction holds the goal. |
| LegacyRoundRobin.FindPlayerAtDrawPosition | src/legacy/tournamentParser.js:558-563 | The loop is the walk from the first index past `start`, in the given direction, to the nearest player holding `goal`. |
| LegacyRoundRobin.Take | src/legacy/tournamentParser.js:617 | `slice(0, n)` keeps the first n elements, or all of them when there are fewer. |
| LegacyRoundRobin.RrRound | src/legacy/tournamentParser.js:636 | Every round-robin match's round starts with "RR". |
| LegacyRoundRobin.WonBacked | src/legacy/tournamentParser.js:629-647 | Once the opponent found holds the column's position, the match names the real winner and loser with their own draw positions. |
| LegacyRoundRobin.ReadResult | src/legacy/tournamentParser.js:622-647 | A cell throws exactly when determining the winner throws. It gives a match exactly when the opponent is found and the score has a winner. The stored score is reversed exactly when side 1 won. |
| LegacyRoundRobin.ReadResultBacked | src/legacy/tournamentParser.js:622-647 | Every match read from a cell is backed by its two players. |
| LegacyRoundRobin.RunCellsErr | src/legacy/tournamentParser.js:621-656 | Once a cell throws, the loop over the player's cells ends with that error. |
| LegacyRoundRobin.RunCellsSnoc | src/legacy/tournamentParser.js:621-656 | One more cell either propagates the error or pushes that cell's match. |
| LegacyRoundRobin.PlayerResults | src/legacy/tournamentParser.js:620-656 | The inner `forEach` over the player's result cells gives the run over that row's references. |
| LegacyRoundRobin.RunRowsErr | src/legacy/tournamentParser.js:619-657 | Once a row throws, the outer loop ends with that error. |
| LegacyRoundRobin.RoundRobinLoop | src/legacy/tournamentParser.js:609-657 | The two nested loops give the round-robin matches of the group, or the error they throw. |
| LegacyRoundRobin.PushKeyed | src/legacy/tournamentParser.js:649-652 | Pushing a backed match under a new key keeps the state keyed. |
| LegacyRoundRobin.RunCellsKeyed | src/legacy/tournamentParser.js:621-656 | A run over cells that does not throw keeps the state keyed. |
| LegacyRoundRobin.RunRowsKeyed | src/legacy/tournamentParser.js:619-657 | A run over rows that does not throw keeps the state keyed. |
| LegacyRoundRobin.RoundRobinMatchesKeyed | src/legacy/tournamentParser.js:609-657 | Without a throw, each stored match has exactly one key (winner, loser, score), and no key occurs twice. Each match names two real players with their own draw positions, the sheet's gender and an "RR" round. |
| LegacyDraw.SheetGenderCases | src/legacy/tournamentParser.js:598-605 | The gender is "M", "W" or "". It is "M" exactly for a boys' title in A2, or for a BS/BD/MS/MD sheet name that no girls' title overrides. It is "W" exactly when there is no boys' title and there is a girls' title or a girls' sheet name. |
| LegacyDraw.RankOverride | src/legacy/tournamentParser.js:792-797 | A rank is set exactly when Q5 contains "rang" and a digit. |
| LegacyDraw.ReadColumn | src/legacy/tournamentParser.js:392-439 | Each reference of the column becomes a cell holding its row and the value at that reference. |
| LegacyDraw.ColumnRounds | src/legacy/tournamentParser.js:697-706 | Each round column of the sheet becomes one round, scanned from the row before its first. |
| LegacyDraw.Named | src/legacy/tournamentParser.js:733-734 | Naming throws exactly when some match has no `winners` list. Otherwise each match is kept, gets as winner names those of the players holding its first winner's position, and carries the gender when there is one. |
| LegacyDraw.PlayedMatchesMembers | src/legacy/tournamentParser.js:730 | The played matches are exactly the matches of the rounds that have losers and a result. |
| LegacyDraw.KnockoutNoRounds | src/legacy/tournamentParser.js:708-712 | With no round, the branch returns early: no rounds, no matches, and the bye table untouched. |
| LegacyDraw.KnockoutSteps | src/legacy/tournamentParser.js:694-734 | Once there are rounds, the bye table's entry for the player count is emptied exactly when the profile is set. The draw is what these steps give in order: adding the first round, dropping empty rounds, constructing the matches, then collecting and naming the played ones. |
| LegacyDraw.KnockoutWithoutColumns | src/legacy/tournamentParser.js:694-712 | A sheet without round columns yields no round and no match, and leaves the bye table alone. |
| LegacyDraw.NamedShape | src/legacy/tournamentParser.js:733-734 | A successful naming keeps every match, in order, named after the players holding its first winner's position. |
| LegacyDraw.ArrangedEntryLast | src/legacy/tournamentParser.js:713-727 | When the entry round has someone in it, it is the last round as `add1stRound` built it. |
| LegacyDraw.KnockoutMatches | src/legacy/tournamentParser.js:730-734 | The draw's matches are, in order, exactly its rounds' matches that have losers and a result. Each is named after the holders of its first winner's position and carries the sheet's gender when there is one. The returned rounds hold these named matches themselves, in place of the played ones. |
| LegacyDraw.KnockoutEntryLast | src/legacy/tournamentParser.js:720-728 | After the annotation, a non-empty entry round is still last and is unchanged: one `{players: [dp]}` per position that won nothing and has no bye. |
| LegacyParser.Includes | src/legacy/tournamentParser.js:66 | It throws exactly when there are no elements to reduce. Otherwise it is true exactly when some element is in the list. |
| LegacyParser.IncludesText | src/legacy/tournamentParser.js:66-67 | On a sheet name, it throws exactly when there are no elements. Otherwise it is true exactly when some element is a substring of the name. |
| LegacyParser.SubInclude | src/legacy/tournamentParser.js:67 | It throws exactly when the list or the elements are empty. Otherwise it is true exactly when some name of the list contains some element. |
| LegacyParser.Parser.constructor | src/legacy/tournamentParser.js:13-17 | The parser starts with no profile and with the original bye table. |
| LegacyParser.Parser.SetWorkbookProfile | src/legacy/tournamentParser.js:925-935 | The profile becomes the result of the identification over the profile table. The result is false exactly when the identification throws, and the bye table is unchanged. |
| LegacyParser.Parser.AddByes | src/legacy/tournamentParser.js:441-458 | Without a profile the rounds are dropped and the table is unchanged. With the TP profile, which has no `add_byes` routine, the rounds are kept and the table entry for this draw size is emptied. In both cases the profile is unchanged. |
| LegacyParser.Parser.AddFirstRound | src/legacy/tournamentParser.js:460-472 | `add1stRound` reads the bye table as it now stands. |
| LegacyParser.Parser.TournamentDraw | src/legacy/tournamentParser.js:589-800 | `tp.tournamentDraw` returns the sheet's draw under the old profile and bye table. Afterwards the table is as that draw leaves it, and the profile is unchanged. |
| LegacyParser.Parser.Knockout | src/legacy/tournamentParser.js:693-734 | The knockout branch returns the knockout draw under the old profile and bye table, and leaves the table this branch's way. |
| LegacyParser.DrawKinds | src/legacy/tournamentParser.js:597-734 | A sheet gives a round-robin draw exactly when some player has an `rr_result`. Its matches then carry keys, one per match and no two alike, each naming two of the sheet's players winner first. A knockout draw's matches are its played matches, named, and are the named matches its rounds hold. |
| LegacyParser.ByesEmptiedAdmitAll | src/legacy/tournamentParser.js:455-464 | Once a draw size's byes are emptied, the first round admits every position that won nothing. |
| LegacyParser.IdentifyTP | src/legacy/tournamentParser.js:925-935 | A workbook with sheets never throws. It becomes TP exactly when it was TP already, has a WS/WD/MS/MD sheet, or has a sheet name containing BS/BD/GS/GD. Otherwise the profile is unchanged. |
| LegacyParser.IdentifyNoSheets | src/legacy/tournamentParser.js:925-935 | A workbook without sheets makes the identification throw before any profile is assigned. |
| LegacyParser.FoundColumns | src/legacy/tournamentParser.js:165-168 | For each header definition, the column of the first cell holding its header text, if there is one. |
| LegacyParser.ApplyHeadersAt | src/legacy/tournamentParser.js:165-168 | With distinct attributes, a definition whose header was found sets its attribute's column, and no later definition changes it. |
| LegacyParser.ApplyHeadersUntouched | src/legacy/tournamentParser.js:165-168 | An attribute with no found definition keeps the column it had, or stays absent. |
| LegacyParser.HeaderDefsDistinct | src/legacy/tournamentParser.js:48-55 | No two header definitions name the same attribute. |
| LegacyParser.HeaderColumnsFound | src/legacy/tournamentParser.js:160-171 | Without the profile there are no columns. With it, a found header sets its attribute to the found column. Otherwise the attribute keeps its default column from the profile's `columns`, or stays absent. |
| LegacyParser.HeaderDefsSkipFixed | src/legacy/tournamentParser.js:48-55 | No header definition names position or rounds. |
| LegacyParser.ApplyHeadersUnnamed | src/legacy/tournamentParser.js:165-168 | An attribute that no definition names keeps its column, whatever was found. |
| LegacyParser.HeaderColumnsFixed | src/legacy/tournamentParser.js:160-171 | With the profile, position is always column A and rounds always column F. |
| LegacyParser.SortByMembers | src/legacy/tournamentParser.js:268 | Sorting keeps exactly the members. |
| LegacyParser.SortedDistinct | src/legacy/tournamentParser.js:268 | Sorting a list without duplicates by character code makes it strictly increasing. |
| LegacyParser.RoundColumnsOrdered | src/legacy/tournamentParser.js:258-270 | The round columns come in strictly increasing order. |
| LegacyParser.RoundColumnsMembers | src/legacy/tournamentParser.js:258-270 | A column is a round column exactly when some key of the header row lies in it, in column F or to its right. |
| LegacyParser.ContainingRefs | src/legacy/tournamentParser.js:99-102 | Every key returned holds, ignoring case, a value that contains the term. |
| LegacyParser.FindGaps | src/legacy/tournamentParser.js:104-122 | The gaps are the gaps of the distinct rows that contain the term, with 0 put in front. They are filtered so that every gap spans more than three rows. |
| ProcessKnockOut.RowRangesMembers | src/functions/processKnockOut.js:23-27 | A row is covered exactly when it lies within `span` rows from one of the matched rows. |
| ProcessKnockOut.RowRangesLength | src/functions/processKnockOut.js:23-33 | Each matched row contributes exactly `span` rows, or none when the span is below 1. |
| ProcessKnockOut.AvoidRowsShape | src/functions/processKnockOut.js:15-33 | The avoid rows fail exactly when a definition is missing for matched rows. Otherwise they hold span rows per header row and per footer row, and a row is avoided exactly when it lies within the span of one of them. |
| ProcessKnockOut.SideIdOrderFree | src/functions/processKnockOut.js:100-101 | A side's participant id does not depend on the order of its players. |
| ProcessKnockOut.GetEntries | src/functions/processKnockOut.js:76-98 | The legacy `getEntries` fails exactly when some side has no player to dereference. |
| ProcessKnockOut.ParticipantIds | src/functions/processKnockOut.js:87 | The participants' ids are exactly the sides' ids. |
| ProcessKnockOut.EntriesKeys | src/functions/processKnockOut.js:87-95 | There is exactly one entry per distinct side id, with none repeated. |
| ProcessKnockOut.EntriesValues | src/functions/processKnockOut.js:87 | Each key of the participants map holds the assignment of the last side with that id. |
| ProcessKnockOut.EntriesSeeds | src/functions/processKnockOut.js:88-90 | The seed assignments are sorted by seed and are a permutation of one assignment per entry, each holding the seed of the last side with that entry's id. |
| ProcessKnockOut.EntriesPositions | src/functions/processKnockOut.js:91-93 | The position assignments are sorted by position and are a permutation of one assignment per entry, each holding the position of the last side with that entry's id. |
| ProcessKnockOut.TextsOfCount | src/functions/processKnockOut.js:49 | Every string among the drawInfo values occurs as often among the strings kept. |
| ProcessKnockOut.FodderOrderFree | src/functions/processKnockOut.js:48-50 | The fodder, and so the draw id, depends only on the drawInfo values, not on the order of its keys. |
| ProcessKnockOut.TodsShape | src/functions/processKnockOut.js:52-57 | A TODS matchUp holds the matchUp's positions in ascending order, is a permutation of them, and keeps the score. Its id is the draw id, a dash and the sorted positions written one after the other, with `-M` after them in the structured form (src/functions/drawStructures/knockOut/processKnockOut.js:61). |
| ProcessKnockOut.TodsOrderFree | src/functions/processKnockOut.js:53-54 | Two matchUps holding the same positions, in whatever order, get the same TODS position list and the same id. |
| Common.SortIntsOrderFree | src/functions/processKnockOut.js:53 | The numeric sort of two lists with the same elements gives the same list, whatever the order of the input. |
| Common.AscendingUnique | src/functions/processKnockOut.js:53 | Two ascending lists with the same elements are equal, so the sorted order is determined by the elements alone. |
| ProcessKnockOut.SortedIndex | src/functions/processKnockOut.js:55 | The index of a position among the sorted positions is -1 exactly when the matchUp does not hold it, and otherwise points at it. |
| ProcessKnockOut.LegacyWinningSide | src/functions/processKnockOut.js:55 | The legacy winning side is the 0-based index of the first winner's position, or -1 exactly when that position is not the matchUp's. |
| ProcessKnockOut.StructuredWinningSide | src/functions/drawStructures/knockOut/processKnockOut.js:62 | The structured winning side is 1-based. It is 0 exactly when the winning position is absent or is not the matchUp's. |
| ProcessKnockOut.MapUntilShape | src/functions/processKnockOut.js:52-57 | The map fails exactly when some element fails. Otherwise it holds f of every element, in order. |
| ProcessKnockOut.MapUntilStops | src/functions/processKnockOut.js:52-57 | Once a prefix fails, the whole map fails with the same reason. |
| ProcessKnockOut.AllTodsShape | src/functions/processKnockOut.js:52-57 | The TODS forms fail exactly when some matchUp fails. Otherwise there is one per matchUp, in order. |
| ProcessKnockOut.AssignTwo | src/functions/processKnockOut.js:47 | Assigning two keys in turn gives both their values and leaves every other key unchanged. |
| ProcessKnockOut.FormatInfoShape | src/functions/processKnockOut.js:47 | After the first assign, drawInfo holds the format and the stage, and every other key keeps its value. |
| ProcessKnockOut.RecordInfoShape | src/functions/processKnockOut.js:70 | After the second assign, drawInfo holds the draw id and the stage, and every key processing does not set keeps its value. |
| ProcessKnockOut.ProcessedInfo | src/functions/processKnockOut.js:47-70 | The final drawInfo holds the format, the stage and the draw id, and keeps every other key's value. The draw id is the hash of the fodder. |
| ProcessKnockOut.AssembledMatchUps | src/functions/processKnockOut.js:52-71 | There is one assembled matchUp per matchUp, each with the drawInfo `event`. Its positions are sorted, are a permutation of the original ones and equal those its TODS matchUp holds. Winners and result are kept. |
| ProcessKnockOut.RecordMatchUps | src/functions/processKnockOut.js:52-71 | After processing there is one matchUp per matchUp, each with the drawInfo `event`. Its positions are sorted in place, so they equal those of its TODS matchUp. |
| ProcessKnockOut.RecordStructureId | src/functions/drawStructures/knockOut/processKnockOut.js:75-85 | Only the structured routine gives the structure an id: the hash of the fodder and the stage, followed by "-S". The structure holds the TODS matchUps. |
| ProcessKnockOut.ProcessErrors | src/functions/processKnockOut.js:45-57 | Processing fails exactly in the legacy routine, and only for a side without players or a matchUp without winners. |
| ProcessKnockOut.ProcessedIsRecord | src/functions/processKnockOut.js:45-73 | A successful run is the record built from its entries and its TODS matchUps. |
| ProcessKnockOut.RecordShape | src/functions/processKnockOut.js:59-73 | The record keeps the entries and the TODS matchUps, settles every matchUp with the drawInfo `event`, and sets the drawInfo keys. |
| ProcessKnockOut.ProcessedShape | src/functions/processKnockOut.js:45-73 | A successful run gives the variant's entries, the draw id hashed from the fodder, and one TODS matchUp per matchUp in order. The matchUps are settled, and drawInfo holds the format, stage and id and keeps every other key. |
| ProcessKnockOut.TodsLoop | src/functions/processKnockOut.js:52-57 | The loop gives the TODS form of every matchUp, or the first failure. |
| ProcessKnockOut.SetEvents | src/functions/processKnockOut.js:71 | Each matchUp gets the event, with its positions sorted. |
| ProcessKnockOut.Finish | src/functions/processKnockOut.js:59-73 | The end of the routine builds the record from the entries and the TODS matchUps. |
| ProcessKnockOut.Process | src/functions/processKnockOut.js:45-73 | The routine, step by step, gives the result of processing. |
| RoundRobinParticipants.SeedFromLeftmost | src/functions/dataExtraction/extractRoundRobinParticipants.js:233-234 | From position k, a seed is found exactly when the pattern matches at some later position. It is then read from the leftmost such position. |
| RoundRobinParticipants.BracketSeedLeftmost | src/functions/dataExtraction/extractRoundRobinParticipants.js:37 | A bracketed seed is found exactly when the pattern matches somewhere in the name. It comes from the first position where it does. |
| RoundRobinParticipants.ExtractPlayerShape | src/functions/dataExtraction/extractRoundRobinParticipants.js:219-265 | A player exists exactly when the full name is non-empty. The name is "last, first" when both name cells are filled, and the players cell otherwise. A bracketed seed becomes the seed and is cut from the name. Filled name cells are taken as they are, and the participant id is the name hash's id followed by "-P". |
| RoundRobinParticipants.StripTiebreaks | src/functions/dataExtraction/extractRoundRobinParticipants.js:207 | Removing the tiebreaks never lengthens the score. |
| RoundRobinParticipants.WinsCount | src/functions/dataExtraction/extractRoundRobinParticipants.js:209-214 | The tally is the number of sets the first side won. |
| RoundRobinParticipants.WinnerIndex | src/functions/dataExtraction/extractRoundRobinParticipants.js:196-217 | The winner index is 0 or 1. |
| RoundRobinParticipants.WinnerIndexCases | src/functions/dataExtraction/extractRoundRobinParticipants.js:196-217 | A result starting "jn" is a walkover won by the row's side. "megsérült" and "feladta" are walkovers it lost. Any other result keeps its normalised score and is won by the row's side exactly when that side took more than half the sets, tiebreaks ignored. |
| RoundRobinParticipants.StripTiebreaksPlain | src/functions/dataExtraction/extractRoundRobinParticipants.js:207 | A score without parentheses loses nothing to the tiebreak removal. |
| RoundRobinParticipants.Bump | src/functions/dataExtraction/extractRoundRobinParticipants.js:61-62 | Bumping a group adds one to its count and leaves every other group's count unchanged. |
| RoundRobinParticipants.ClassifyRows | src/functions/dataExtraction/extractRoundRobinParticipants.js:41-85 | The row loop leaves the accumulators as classifying the rows' facts in order gives them. |
| RoundRobinParticipants.PlayerRecorded | src/functions/dataExtraction/extractRoundRobinParticipants.js:51-55 | Recording a player row keeps every earlier record, and records the new player together with its row, its position and its last name. |
| RoundRobinParticipants.OtherRecorded | src/functions/dataExtraction/extractRoundRobinParticipants.js:56-83 | Recording a result row or a header row keeps every earlier record. |
| RoundRobinParticipants.StepRecorded | src/functions/dataExtraction/extractRoundRobinParticipants.js:41-85 | One row keeps the records in lockstep and traceable to the rows seen. |
| RoundRobinParticipants.ClassificationRecorded | src/functions/dataExtraction/extractRoundRobinParticipants.js:41-85 | After the loop, the players are recorded in lockstep, and every record comes from a row that was given. |
| RoundRobinParticipants.ClassificationValid | src/functions/dataExtraction/extractRoundRobinParticipants.js:41-85 | Each player is what `extractPlayer` makes of its row, at the row's non-empty draw position, with its upper-cased last name beside it. Each result row repeats a player row's position and names no player. Every recorded row is one of the given rows. |
| RoundRobinParticipants.HeadersAboveAll | src/functions/dataExtraction/extractRoundRobinParticipants.js:59 | A row below every header row has all of them above it. |
| RoundRobinParticipants.FilterSameOn | src/functions/dataExtraction/extractRoundRobinParticipants.js:57-63 | Two filters that agree on every element of the list keep the same elements. |
| RoundRobinParticipants.ResultCounts | src/functions/dataExtraction/extractRoundRobinParticipants.js:57-63 | A result row below every header row adds one to the count of the group of all headers, and to no other group. |
| RoundRobinParticipants.HeaderCounts | src/functions/dataExtraction/extractRoundRobinParticipants.js:79 | A header row below every result row moves none of them to another group. |
| RoundRobinParticipants.StepCounts | src/functions/dataExtraction/extractRoundRobinParticipants.js:41-85 | When the new row lies below every recorded row, each step keeps a group's count equal to its number of result rows. |
| RoundRobinParticipants.GroupCountsOf | src/functions/dataExtraction/extractRoundRobinParticipants.js:41-85 | On ascending rows, each group's count is the number of its result rows. |
| RoundRobinParticipants.GroupCounts | src/functions/dataExtraction/extractRoundRobinParticipants.js:41-85 | On ascending rows, the member count of each group is the number of its result rows, namely those with that many bracket header rows above them. |
| RoundRobinParticipants.GroupNumberCounts | src/functions/dataExtraction/extractRoundRobinParticipants.js:146-151 | Over ascending header rows, the group number is the number of header rows above the row, and undefined when there are none. |
| RoundRobinParticipants.RowMatchUpsMembers | src/functions/dataExtraction/extractRoundRobinParticipants.js:170-192 | A row gives exactly one matchUp for each opponent whose result the row's own participant won, and no other. |
| RoundRobinParticipants.LastNamedShape | src/functions/dataExtraction/extractRoundRobinParticipants.js:133-138 | The lookup finds the last player with that last name, and nothing exactly when no player has it. |
| RoundRobinParticipants.PlayoffSides | src/functions/dataExtraction/extractRoundRobinParticipants.js:105-127 | In a playoff matchUp, side 2 wins when the result's winner index is 1, and side 1 wins otherwise. The matchUp holds both sides' positions, the score and round "Playoff". |
| RoundRobinParticipants.PlayoffMatchUpsShape | src/functions/dataExtraction/extractRoundRobinParticipants.js:104-131 | The playoff rows succeed together or not at all. Each playoff matchUp is the one of a row that names both its sides. |
| RoundRobinParticipants.ExtractRoundRobinParticipants | src/functions/dataExtraction/extractRoundRobinParticipants.js:12-102 | The routine gives the participants' extraction: the players, then the group matchUps of the result rows, then the playoff matchUps. |
| WorkbookTypes.TableShape | src/types/workbookTypes.js:5-865 | The table has four types (CR, IND, MTSZ, HTS), each with a profile and none with `validSheet`. Only HTS takes a doubles partner's position from the next row; the others take it from the previous row. CR and IND are recognised by their matcher alone, and MTSZ and HTS by their required sheets alone. |
| WorkbookTypes.VTestIsPrefixU | src/types/workbookTypes.js:192-199 | Since every optional part of the first expression may match nothing, it accepts exactly the names that start with "U". |
| WorkbookTypes.CrMatcherAccepts | src/types/workbookTypes.js:192-199 | The CR matcher accepts exactly when some sheet name starts with "U", or starts with "A MASC", "B MASC" or "C MASC". |
| WorkbookTypes.DateParserShape | src/types/workbookTypes.js:174-185 | The start date is the text before the first '-', with every '.' made a '-'. A date without '-' has no end date. An end date is built from the start's leading components, completed by the end's non-empty components. |
| WorkbookTypes.DateParserSameMonth | src/types/workbookTypes.js:174-185 | A range within one month, such as "2020.06.15-17", keeps the start's year and month in the end date and takes the end's day. |
| WorkbookTypes.GenderParser | src/types/workbookTypes.js:186-190 | The gender is "M" exactly for a value starting with "F", "W" exactly for one starting with "L", and "X" for any other value. |
| WorkbookParser.IdentifyLast | src/functions/tournament/spreadSheetParser.js:147-156 | No type is identified exactly when no type accepts the sheet names. Otherwise the identified type is the last one in table order that accepts them. |
| WorkbookParser.IdentifyTable | src/functions/tournament/spreadSheetParser.js:147-156 | Under the table, a Pocetna, Rang-lista or Izvjestaj sheet makes an HTS workbook whatever else is present. A workbook without sheets is not identified. A workbook is identified exactly when the CR or IND matcher accepts, or it has an Altalanos or HTS sheet. |
| WorkbookParser.PushDataShape | src/functions/tournament/spreadSheetParser.js:46-50 | Exactly the sheet's draw is appended. A player or participant the sheet names takes the sheet's value, and every other keeps its value. |
| WorkbookParser.ProcessSheetStep | src/functions/tournament/spreadSheetParser.js:72-98 | One sheet adds its draw exactly when it is a draw sheet. It merges its information exactly when it is an information sheet, whether or not the filter admits it. |
| WorkbookParser.InfoOfSnoc | src/functions/tournament/spreadSheetParser.js:89-94 | One more information sheet appends its information after that of the earlier ones. |
| WorkbookParser.WalkDraws | src/functions/tournament/spreadSheetParser.js:72-100 | The draws are those of the draw sheets that pass the filter, in workbook order. |
| WorkbookParser.WalkInfo | src/functions/tournament/spreadSheetParser.js:84-100 | The tournament data is every information sheet's information merged in workbook order, whether or not the filter admits the sheet. |
| WorkbookParser.SpreadSheetParser | src/functions/tournament/spreadSheetParser.js:18-110 | The parser's loop over the sheets gives the outcome of the parse. |
| WorkbookParser.ParseResult | src/functions/tournament/spreadSheetParser.js:32-109 | The workbook is not identified exactly when no type accepts it, and it misses a profile exactly when its type has none. A created record has one draw per draw sheet that passes the filter. Its tournament data maps each key to the last information sheet's value for it, and `providerId` to the profile's. |
| LegacyWorkbook.Accepts | src/functions/spreadSheetParser.js:97-100 | Testing a type fails exactly when there are sheets and the type has no `validSheet` to call. A type is accepted only when it has one. |
| LegacyWorkbook.IdentifyWorkbook | src/functions/spreadSheetParser.js:95-102 | An identified type always has a `validSheet`. |
| LegacyWorkbook.IdentifyLast | src/functions/spreadSheetParser.js:95-102 | Identification fails, with "validSheet is not a function", exactly when there are sheets and some type has no `validSheet`. No type is identified exactly when every type is refused. Otherwise the identified type is the last one accepted. |
| LegacyWorkbook.IdentifyTable | src/functions/spreadSheetParser.js:95-102 | No table entry defines `validSheet`, so a workbook with sheets makes the identification fail, and one without sheets is not identified. |
| LegacyWorkbook.GenerateTournamentIdShape | src/functions/spreadSheetParser.js:84-93 | The id is the name with its spaces made underscores, then the city, the joined categories and the start date, each after an underscore. It fails exactly when the categories are not a list, or when the name is neither absent, empty nor a text. An absent or empty name gives no id. |
| LegacyWorkbook.SheetsToProcess | src/functions/spreadSheetParser.js:35-37 | A sheet is processed exactly when it is a sheet of the workbook, its type's `validSheet` accepts it, and it passes the filter. |
| LegacyWorkbook.WalkFailureStays | src/functions/spreadSheetParser.js:42-78 | Once the walk has failed, the later sheets leave the failure as it is. |
| LegacyWorkbook.SpreadSheetParser | src/functions/spreadSheetParser.js:12-82 | The parser's loop over the sheets gives the outcome of the parse, stopping at the first failure. |
| LegacyWorkbook.ProcessSheetStep | src/functions/spreadSheetParser.js:46-77 | A sheet fails exactly when it is an information sheet whose id fails. Otherwise it adds its draw exactly when it is a processed knockout sheet, and only an information sheet changes the fields. |
| LegacyWorkbook.WalkDraws | src/functions/spreadSheetParser.js:42-78 | The walk fails exactly when some information sheet's id fails. Otherwise its draws are those of the processed knockout sheets, in workbook order. |
| LegacyWorkbook.WalkSnoc | src/functions/spreadSheetParser.js:42-78 | When the walk so far succeeds, one more sheet is processed on top of it. |
| LegacyWorkbook.InfoStep | src/functions/spreadSheetParser.js:64-72 | An information sheet merges its information into the fields and then sets the tournament id. |
| LegacyWorkbook.WalkFields | src/functions/spreadSheetParser.js:42-78 | When the walk succeeds, every field other than `tournamentId` holds the value given by the last information sheet that sets it. Without information sheets there are no fields. |
| LegacyWorkbook.WalkTournamentId | src/functions/spreadSheetParser.js:64-72 | When the walk succeeds, `tournamentId` holds the id of the last information sheet. |
| LegacyWorkbook.ParseTable | src/functions/spreadSheetParser.js:12-82 | With the table as it stands, the legacy parser fails on every workbook with sheets, and dispatches an empty record for a workbook without sheets. |
| LegacyWorkbook.ParseResult | src/functions/spreadSheetParser.js:21-81 | A failed identification fails the parse. An unidentified workbook dispatches a record without draws, and a type without a profile dispatches nothing. Otherwise the parse fails exactly when some information sheet's id fails, and the record holds one draw per processed knockout sheet. |

## Left out

- User interface files, React components and the `window.dev` globals: they present the parsed data and compute none of it.
- `constructDraw`: a thin dispatcher to `constructRoundRobin`, which is not part of this model.
- Decoding the XLSX binary with `XLSX.read`, `localStorage`, the `xlsxStore.dispatch` messages, `createTournamentRecord`, and every `console.log` and `alert`: these are input, output and logging. The stored sheet filter is a parameter. The dispatched record is the parsers' result.
- Most helpers defined in files that are not part of this model are parameters of the model. They take no part in any proof beyond what their types say. They are:
  - `identifySheet`, `extractInfo`, and `processKnockOut` and `processRoundRobin` as the workbook parsers see them;
  - `hashId` and `nameHash`, so hash collisions are not modelled;
  - `normalizeScore`, `tidyScore`, `cleanScore.normalize` and `normalizeDiacritics`;
  - `getColumnMatchUps` and `getRoundData` as `constructKnockOut` sees them, `getExpectedRoundMatchUps` and `constructMatches`;
  - `findRow`, `maxInstance`, `cellsContaining`, `numberValue`, `isString`, and the ranking validator;
  - the structured `getEntries`.
- The helpers of `functions/utilities` that the core calls (`unique`, `chunkArray`, `instanceCount`, `isPowerOf2` and `generateRange`, imported at src/functions/constructKnockOut.js:4, src/functions/processKnockOut.js:6 and src/functions/dataExtraction/extractRoundRobinParticipants.js:3) are written out instead, with the meaning this model assumes for them, since their file is not part of this model:
  - `unique` (`Common.Unique`) keeps the last occurrence of each element, in order;
  - `chunkArray(s, 2)` (`Common.ChunkPairs`) cuts the list into consecutive pairs, the last one possibly single;
  - `Math.max(...Object.values(instanceCount(s)))` (`Common.MaxOccurrence`) is how often the most frequent element occurs, 0 for an empty list;
  - `isPowerOf2` (`Common.IsPowerOf2`, used by `KnockOutConstruction.ValidSize`) holds for 1, 2, 4, 8 and so on; a fractional or zero half of the number of positions is not a power of two;
  - `generateRange(a, b)` (`Common.Range`, used by `ProcessKnockOut.RowRanges` and `RoundRobinParticipants.CountsBelow`) is a, a + 1, ..., b - 1, and empty when b <= a.
- Regular expressions, `parseInt` and `isNaN`: each is written out only for the patterns the code uses, on the text forms the model covers (digit runs, a `[n]` or `[n/m]` seed, the `U`/`MASC` sheet names). Any other regular expression a profile names is tested by a parameter.
- Cell references are modelled with single-letter columns only; the source filters all other keys out before using them.
- The value of an absent cell is the empty text.
- JavaScript's ordering of integer-like object keys ahead of others in `Object.keys` is not modelled. Keys keep their insertion order.
- JSON values other than a string, a list of strings and `undefined` are modelled as one opaque kind, since the code only tests for these.
- `toLowerCase` and `toUpperCase` change the ASCII letters only. `trim` removes space, tab, line feed, vertical tab, form feed, carriage return, the no-break space U+00A0 and the byte order mark U+FEFF. It keeps the other white space JavaScript removes: U+1680, U+2000 to U+200A, U+2028, U+2029, U+202F, U+205F and U+3000.
- Update in place and aliasing of the source's arrays and objects are modelled on values. Each operation returns the new value of what it changed, except the legacy parser's state `tp`, which is a class. Where the source changes objects that two lists share (the matchUps named by `constructKnockOut` and by the legacy knockout branch, which stay in the returned rounds), both lists are built from the changed values.
- The logging-only `getDrawColumns` and all commented-out code.
- In `processKnockOut`, `headerRow = headerRows[0]` and `footerRow = footerRows[footerRows.length - 1]` (src/functions/processKnockOut.js:21-22) and the calls they feed (lines 34-44: `getHeaderColumns`, `getParticipantRows`, `extractDrawParticipants`, `extractInfo` and `tournamentDraw`) are not modelled as part of `ProcessKnockOut`, which starts from the constructed draw. `ParticipantRows` takes the header and footer rows as parameters, with None for `undefined`.
- The doubles `rowOffset` of the column scan has no effect on the result: the first cell always opens a group (`ColumnScan.ScanIgnoresOffset`). The round-robin `isDoubles` is always false in the source and is modelled so.
- `matchType`, `stage` values other than the one passed in, and other fields copied through unchanged are carried as opaque values or left out.
- `constructPreroundMatches`, the preround branch and the third-place playoff of the legacy parser (src/legacy/tournamentParser.js:497-522, 736-788), and the `preround` output of `constructKnockOut` (src/functions/constructKnockOut.js:91): these depend on `getRoundData` and the preround profile, which is not part of this model. `KnockOutConstruction.KnockOut` has no `preround` field.
- The single-page round-robin finals search of the legacy parser (src/legacy/tournamentParser.js:658-691).
- The sort branch of `addByes` is not modelled: it runs only under a profile routine that no profile of the legacy parser defines.
- An undefined `seedNumber` is not distinguished from a missing seed assignment.
- A `processKnockOut` or `processRoundRobin` that throws is not modelled; the parameters always return.
- An information sheet supplying a `draws` key is not modelled as overwriting the legacy record's draws.
- The legacy parser's global `tp.profile` and `tp.verbose` are fields of the `LegacyParser.Parser` class. Verbosity only controls logging.
- LegacyWorkbook.GenerateTournamentIdShape: a tournament name that is a falsy non-text value (a number 0, `null`, `false`) is modelled as failing like any other non-text name. The source gives no id for it, because the model's JSON values do not tell falsy values apart.
- LegacyParser.ContainingRefs: states only that every returned reference holds the term, not that every reference holding it is returned.
- The legacy `identifyWorkbook` needs a type with a `validSheet` test, and no entry of the table defines one (`WorkbookTypes.TableShape`). So on the table as shipped the legacy parser identifies no workbook with sheets, and the model states this (`LegacyWorkbook.ParseTable`).
