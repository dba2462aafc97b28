/**
 * The tournament workbook parser, `spreadSheetParser`: it identifies the
 * workbook's type, then walks every sheet in workbook order. Draw sheets
 * that pass the sheet filter add their draw and merge their players and
 * participants. Information sheets merge their tournament information,
 * whether or not they pass the filter.
 */
module WorkbookParser {
  import opened Common
  import opened Objects
  import WT = WorkbookTypes

  /** The JSON values the parsers look at: absent, a text, a list of texts, or any other value with the text `String(value)` gives. */
  datatype Json = Undefined | Str(text: string) | Strs(items: seq<string>) | Other(rendered: string)

  /** `sheetDefinition.type` */
  datatype SheetType = Knockout | RoundRobin | Participants | Information | OtherType(name: string)

  /** What `processKnockOut` and `processRoundRobin` return. */
  datatype SheetData = SheetData(drawInfo: Object<Json>, playersMap: Option<Object<Json>>, participantsMap: Option<Object<Json>>)

  /**
   * The workbook as the walk sees it, through the routines outside this model:
   * - `identifySheet` gives a sheet's definition (none when it has none);
   * - `processKnockOut` and `processRoundRobin` give a draw sheet's data;
   * - `extractInfo` gives an information sheet's tournament information.
   * Each already knows the workbook and the profile.
   */
  datatype Env = Env(
    identifySheet: string -> Option<SheetType>,
    processKnockOut: string -> SheetData,
    processRoundRobin: string -> SheetData,
    extractInfo: string -> Object<Json>)

  /** The accumulators of the walk. */
  datatype Acc = Acc(draws: seq<Object<Json>>, tournamentData: Object<Json>, allPlayers: Object<Json>, allParticipants: Object<Json>)

  const Empty: Acc := Acc([], [], [], [])

  /** How the parse ends: a notice that the workbook is not identified or has no profile, or the data for the tournament record. */
  datatype Outcome = NotIdentified | MissingProfile(organization: string) | Created(record: Acc)

  // ---------------------------------------------------------------- identification

  /** `mustContainSheetNames.some(name => sheetNames.includes(name))`: false for an empty list. */
  predicate ContainsRequiredSheets(t: WT.WorkbookType, sheetNames: seq<string>) {
    exists n :: n in t.mustContainSheetNames && n in sheetNames
  }

  predicate Accepts(t: WT.WorkbookType, sheetNames: seq<string>) {
    ContainsRequiredSheets(t, sheetNames) || (t.matcher.Some? && WT.Matches(t.matcher.value, sheetNames))
  }

  /** `identifyWorkbook`: the reduce keeps the last accepting type. */
  function IdentifyWorkbook(types: seq<WT.WorkbookType>, sheetNames: seq<string>): Option<WT.WorkbookType> {
    if types == [] then None
    else if Accepts(types[|types| - 1], sheetNames) then Some(types[|types| - 1])
    else IdentifyWorkbook(types[..|types| - 1], sheetNames)
  }

  /** The identified type is the last one in table order that accepts the sheet names; none when no type does. */
  lemma {:induction false} IdentifyLast(types: seq<WT.WorkbookType>, sheetNames: seq<string>)
    ensures IdentifyWorkbook(types, sheetNames).None? <==> forall i :: 0 <= i < |types| ==> !Accepts(types[i], sheetNames)
    ensures IdentifyWorkbook(types, sheetNames).Some? ==>
      exists i :: 0 <= i < |types| && IdentifyWorkbook(types, sheetNames) == Some(types[i]) && Accepts(types[i], sheetNames)
        && forall j :: i < j < |types| ==> !Accepts(types[j], sheetNames)
  {
    if types != [] {
      var init := types[..|types| - 1];
      IdentifyLast(init, sheetNames);
      assert forall i :: 0 <= i < |init| ==> init[i] == types[i];
    }
  }

  /** Under the table: an HTS sheet makes an HTS workbook, whatever else it holds, and a workbook without sheets is not identified. */
  lemma IdentifyTable(sheetNames: seq<string>)
    ensures ("Pocetna" in sheetNames || "Rang-lista" in sheetNames || "Izvjestaj" in sheetNames) ==>
      IdentifyWorkbook(WT.Table, sheetNames) == Some(WT.Hts)
    ensures sheetNames == [] ==> IdentifyWorkbook(WT.Table, sheetNames).None?
    ensures IdentifyWorkbook(WT.Table, sheetNames).Some? <==>
      WT.CrMatches(sheetNames) || WT.IndMatches(sheetNames) || "Altalanos" in sheetNames
        || "Pocetna" in sheetNames || "Rang-lista" in sheetNames || "Izvjestaj" in sheetNames
  {
    IdentifyLast(WT.Table, sheetNames);
    assert WT.Table[3] == WT.Hts;
    if "Pocetna" in sheetNames { assert "Pocetna" in WT.Hts.mustContainSheetNames; }
    if "Rang-lista" in sheetNames { assert "Rang-lista" in WT.Hts.mustContainSheetNames; }
    if "Izvjestaj" in sheetNames { assert "Izvjestaj" in WT.Hts.mustContainSheetNames; }
    if "Altalanos" in sheetNames { assert Accepts(WT.Table[2], sheetNames); }
    if WT.CrMatches(sheetNames) { assert Accepts(WT.Table[0], sheetNames); }
    if WT.IndMatches(sheetNames) { assert Accepts(WT.Table[1], sheetNames); }
  }

  // ---------------------------------------------------------------- the sheet walk

  /** `!sheetFilter || sheet.toLowerCase().includes(sheetFilter)`, with the stored filter already lower-cased. */
  predicate PassesFilter(sheetFilter: Option<string>, sheetName: string) {
    sheetFilter.None? || sheetFilter.value == "" || Contains(ToLower(sheetName), sheetFilter.value)
  }

  /** `localStorage.getItem(...)?.toLowerCase()` */
  function LowerFilter(stored: Option<string>): Option<string> {
    if stored.Some? then Some(ToLower(stored.value)) else None
  }

  /** `pushData`: one more draw, and the sheet's participants and players merged over those already seen. */
  function PushData(acc: Acc, data: SheetData): Acc {
    var participants := if data.participantsMap.Some? then data.participantsMap.value else [];
    var players := if data.playersMap.Some? then data.playersMap.value else [];
    acc.(allParticipants := AssignAll(acc.allParticipants, participants),
         allPlayers := AssignAll(acc.allPlayers, players),
         draws := acc.draws + [data.drawInfo])
  }

  /**
   * `pushData` appends exactly the sheet's draw; a player or participant the
   * sheet names takes the sheet's value, and every other keeps its value.
   */
  lemma PushDataShape(acc: Acc, data: SheetData, k: string)
    requires data.playersMap.Some? ==> WellKeyed(data.playersMap.value)
    requires data.participantsMap.Some? ==> WellKeyed(data.participantsMap.value)
    ensures var r := PushData(acc, data);
      && r.draws == acc.draws + [data.drawInfo]
      && r.tournamentData == acc.tournamentData
      && Get(r.allPlayers, k) == (if data.playersMap.Some? && Get(data.playersMap.value, k).Some? then Get(data.playersMap.value, k) else Get(acc.allPlayers, k))
      && Get(r.allParticipants, k) == (if data.participantsMap.Some? && Get(data.participantsMap.value, k).Some? then Get(data.participantsMap.value, k) else Get(acc.allParticipants, k))
  {
    var participants := if data.participantsMap.Some? then data.participantsMap.value else [];
    var players := if data.playersMap.Some? then data.playersMap.value else [];
    AssignAllGet(acc.allPlayers, players, k);
    AssignAllGet(acc.allParticipants, participants, k);
    if data.playersMap.Some? { LastForWellKeyed(players, k); }
    if data.participantsMap.Some? { LastForWellKeyed(participants, k); }
  }

  /** `processSheet(sheetName)`: the branch the sheet's definition and the filter select. */
  function ProcessSheet(env: Env, toProcess: bool, acc: Acc, sheetName: string): Acc {
    var definition := env.identifySheet(sheetName);
    if definition.None? then acc
    else if toProcess && definition.value == Knockout then PushData(acc, env.processKnockOut(sheetName))
    else if toProcess && definition.value == RoundRobin then PushData(acc, env.processRoundRobin(sheetName))
    else if toProcess && definition.value == Participants then acc
    else if definition.value == Information then acc.(tournamentData := AssignAll(acc.tournamentData, env.extractInfo(sheetName)))
    else acc
  }

  /** The accumulators after the walk over `names`, with `admitted` the sheets to process. */
  function Walk(env: Env, admitted: seq<string>, names: seq<string>): Acc {
    if names == [] then Empty
    else ProcessSheet(env, names[|names| - 1] in admitted, Walk(env, admitted, names[..|names| - 1]), names[|names| - 1])
  }

  /** `spreadSheetParser`, once the workbook is read. */
  function ParseOf(env: Env, types: seq<WT.WorkbookType>, storedFilter: Option<string>, sheetNames: seq<string>): Outcome {
    var workbookType := IdentifyWorkbook(types, sheetNames);
    if workbookType.None? then NotIdentified
    else if workbookType.value.profile.None? then MissingProfile(workbookType.value.organization)
    else
      var sheetFilter := LowerFilter(storedFilter);
      var admitted := Filter(sheetNames, name => PassesFilter(sheetFilter, name));
      var acc := Walk(env, admitted, sheetNames);
      var providerId := workbookType.value.profile.value.providerId;
      Created(acc.(tournamentData := Assign(acc.tournamentData, "providerId", if providerId.Some? then Str(providerId.value) else Undefined)))
  }

  method SpreadSheetParser(env: Env, types: seq<WT.WorkbookType>, storedFilter: Option<string>, sheetNames: seq<string>) returns (r: Outcome)
    ensures r == ParseOf(env, types, storedFilter, sheetNames)
  {
    var sheetFilter := LowerFilter(storedFilter);
    var draws: seq<Object<Json>> := [];
    var tournamentData: Object<Json> := [];
    var allPlayers: Object<Json> := [];
    var allParticipants: Object<Json> := [];
    var workbookType := IdentifyWorkbook(types, sheetNames);
    if workbookType.None? {
      return NotIdentified;
    }
    var profile := workbookType.value.profile;
    if profile.None? {
      return MissingProfile(workbookType.value.organization);
    }
    var sheetsToProcess := Filter(sheetNames, name => PassesFilter(sheetFilter, name));
    for i := 0 to |sheetNames|
      invariant Acc(draws, tournamentData, allPlayers, allParticipants) == Walk(env, sheetsToProcess, sheetNames[..i])
    {
      assert sheetNames[..i + 1][..i] == sheetNames[..i];
      var sheetName := sheetNames[i];
      var sheetDefinition := env.identifySheet(sheetName);
      var toProcess := sheetName in sheetsToProcess;
      if sheetDefinition.None? {
      } else if toProcess && sheetDefinition.value == Knockout {
        var data := env.processKnockOut(sheetName);
        var next := PushData(Acc(draws, tournamentData, allPlayers, allParticipants), data);
        draws, allPlayers, allParticipants := next.draws, next.allPlayers, next.allParticipants;
      } else if toProcess && sheetDefinition.value == RoundRobin {
        var data := env.processRoundRobin(sheetName);
        var next := PushData(Acc(draws, tournamentData, allPlayers, allParticipants), data);
        draws, allPlayers, allParticipants := next.draws, next.allPlayers, next.allParticipants;
      } else if toProcess && sheetDefinition.value == Participants {
      } else if sheetDefinition.value == Information {
        var tournamentInfo := env.extractInfo(sheetName);
        tournamentData := AssignAll(tournamentData, tournamentInfo);
      }
    }
    assert sheetNames[..|sheetNames|] == sheetNames;
    var providerId := profile.value.providerId;
    tournamentData := Assign(tournamentData, "providerId", if providerId.Some? then Str(providerId.value) else Undefined);
    r := Created(Acc(draws, tournamentData, allPlayers, allParticipants));
  }

  // ---------------------------------------------------------------- what the walk collects

  /** A sheet that adds a draw: it passes the filter and is a knockout or round robin sheet. */
  predicate IsDrawSheet(env: Env, admitted: seq<string>, name: string) {
    name in admitted && env.identifySheet(name).Some? && (env.identifySheet(name).value == Knockout || env.identifySheet(name).value == RoundRobin)
  }

  /** The data a draw sheet gives. */
  function DataOf(env: Env, name: string): SheetData {
    if env.identifySheet(name) == Some(Knockout) then env.processKnockOut(name) else env.processRoundRobin(name)
  }

  /** An information sheet; the filter does not matter. */
  predicate IsInfoSheet(env: Env, name: string) {
    env.identifySheet(name) == Some(Information)
  }

  function InfoOf(env: Env, names: seq<string>): seq<(string, Json)> {
    Flatten(seq(|names|, i requires 0 <= i < |names| => env.extractInfo(names[i])))
  }

  lemma InfoOfSnoc(env: Env, names: seq<string>, name: string)
    ensures InfoOf(env, names + [name]) == InfoOf(env, names) + env.extractInfo(name)
  {
    var ss := seq(|names|, i requires 0 <= i < |names| => env.extractInfo(names[i]));
    assert seq(|names + [name]|, i requires 0 <= i < |names + [name]| => env.extractInfo((names + [name])[i])) == ss + [env.extractInfo(name)];
    FlattenAppend(ss, env.extractInfo(name));
  }

  /** One sheet adds its draw exactly when it is a draw sheet, and merges its information exactly when it is an information sheet. */
  lemma ProcessSheetStep(env: Env, admitted: seq<string>, acc: Acc, name: string)
    ensures var r := ProcessSheet(env, name in admitted, acc, name);
      && r.draws == acc.draws + (if IsDrawSheet(env, admitted, name) then [DataOf(env, name).drawInfo] else [])
      && r.tournamentData == (if IsInfoSheet(env, name) then AssignAll(acc.tournamentData, env.extractInfo(name)) else acc.tournamentData)
  {
  }

  /** The draws are those of the draw sheets, in workbook order. */
  lemma {:induction false} WalkDraws(env: Env, admitted: seq<string>, names: seq<string>)
    ensures var acc := Walk(env, admitted, names);
      var drawSheets := Filter(names, name => IsDrawSheet(env, admitted, name));
      && |acc.draws| == |drawSheets|
      && (forall i :: 0 <= i < |drawSheets| ==> acc.draws[i] == DataOf(env, drawSheets[i]).drawInfo)
  {
    if names != [] {
      var init := names[..|names| - 1];
      var name := names[|names| - 1];
      assert init + [name] == names;
      WalkDraws(env, admitted, init);
      FilterAppend(init, name, name => IsDrawSheet(env, admitted, name));
      ProcessSheetStep(env, admitted, Walk(env, admitted, init), name);
    }
  }

  /** The tournament data is every information sheet's information merged in workbook order, whether the filter admits the sheet or not. */
  lemma {:induction false} WalkInfo(env: Env, admitted: seq<string>, names: seq<string>)
    ensures Walk(env, admitted, names).tournamentData == AssignAll([], InfoOf(env, Filter(names, name => IsInfoSheet(env, name))))
  {
    if names != [] {
      var init := names[..|names| - 1];
      var name := names[|names| - 1];
      assert init + [name] == names;
      WalkInfo(env, admitted, init);
      FilterAppend(init, name, name => IsInfoSheet(env, name));
      ProcessSheetStep(env, admitted, Walk(env, admitted, init), name);
      var infos := Filter(init, name => IsInfoSheet(env, name));
      if IsInfoSheet(env, name) {
        InfoOfSnoc(env, infos, name);
        AssignAllAppend([], InfoOf(env, infos), env.extractInfo(name));
      } else {
        assert Filter(names, name => IsInfoSheet(env, name)) == infos;
      }
    }
  }

  /**
   * The created record: its draws come from the draw sheets that pass the
   * filter, and its tournament data maps each key to the value of the last
   * information sheet that sets it, with `providerId` the profile's.
   */
  lemma ParseResult(env: Env, types: seq<WT.WorkbookType>, storedFilter: Option<string>, sheetNames: seq<string>, k: string)
    ensures var r := ParseOf(env, types, storedFilter, sheetNames);
      var t := IdentifyWorkbook(types, sheetNames);
      var admitted := Filter(sheetNames, name => PassesFilter(LowerFilter(storedFilter), name));
      var infos := InfoOf(env, Filter(sheetNames, name => IsInfoSheet(env, name)));
      && (r == NotIdentified <==> t.None?)
      && (r.MissingProfile? <==> t.Some? && t.value.profile.None?)
      && (r.Created? ==>
            && t.Some? && t.value.profile.Some?
            && |r.record.draws| == |Filter(sheetNames, name => IsDrawSheet(env, admitted, name))|
            && (forall name :: name in admitted <==> name in sheetNames && PassesFilter(LowerFilter(storedFilter), name))
            && (k != "providerId" ==> Get(r.record.tournamentData, k) == LastFor(infos, k))
            && Get(r.record.tournamentData, "providerId") ==
                 Some(if t.value.profile.value.providerId.Some? then Str(t.value.profile.value.providerId.value) else Undefined))
  {
    var admitted := Filter(sheetNames, name => PassesFilter(LowerFilter(storedFilter), name));
    var infos := InfoOf(env, Filter(sheetNames, name => IsInfoSheet(env, name)));
    var t := IdentifyWorkbook(types, sheetNames);
    forall name ensures name in admitted <==> name in sheetNames && PassesFilter(LowerFilter(storedFilter), name) {
      FilterMembers(sheetNames, name => PassesFilter(LowerFilter(storedFilter), name), name);
    }
    if t.Some? && t.value.profile.Some? {
      WalkDraws(env, admitted, sheetNames);
      WalkInfo(env, admitted, sheetNames);
      var acc := Walk(env, admitted, sheetNames);
      AssignAllGet([], infos, k);
      var providerId := t.value.profile.value.providerId;
      AssignGet(acc.tournamentData, "providerId", if providerId.Some? then Str(providerId.value) else Undefined, k);
      AssignGet(acc.tournamentData, "providerId", if providerId.Some? then Str(providerId.value) else Undefined, "providerId");
    }
  }
}
