/**
 * The legacy workbook parser: it identifies the workbook by each type's
 * `validSheet` test and required sheets, collects the knockout draws of the
 * sheets it processes, and merges every information sheet's tournament
 * information into the record together with a generated tournament id.
 */
module LegacyWorkbook {
  import opened Common
  import opened Objects
  import WT = WorkbookTypes
  import WP = WorkbookParser

  const NotAFunction: string := "validSheet is not a function"

  /** `containsValidSheet && containsRequiredSheets` for one type; none when the type has no `validSheet` to call. */
  function Accepts(t: WT.WorkbookType, sheetNames: seq<string>): (r: Result<bool>)
    ensures r.Err? <==> sheetNames != [] && t.validSheet.None?
    ensures r == Ok(true) ==> t.validSheet.Some?
  {
    if sheetNames == [] then Ok(false)
    else if t.validSheet.None? then Err(NotAFunction)
    else
      var containsValidSheet := exists n :: n in sheetNames && t.validSheet.value(n);
      var containsRequiredSheets := forall m :: m in t.mustContainSheetNames ==> m in sheetNames;
      Ok(containsValidSheet && containsRequiredSheets)
  }

  /** `identifyWorkbook`: the reduce keeps the last accepting type, and stops at the first type it cannot test. */
  function IdentifyWorkbook(types: seq<WT.WorkbookType>, sheetNames: seq<string>): (r: Result<Option<WT.WorkbookType>>)
    ensures r.Ok? && r.value.Some? ==> r.value.value.validSheet.Some?
  {
    if types == [] then Ok(None)
    else
      var previous := IdentifyWorkbook(types[..|types| - 1], sheetNames);
      var accepts := Accepts(types[|types| - 1], sheetNames);
      if previous.Err? then previous
      else if accepts.Err? then Err(accepts.reason)
      else if accepts.value then Ok(Some(types[|types| - 1]))
      else previous
  }

  /**
   * Identification fails exactly when there are sheets and some type has no
   * `validSheet`; otherwise it yields the last type that has a valid sheet and
   * all its required sheets, or none.
   */
  lemma {:induction false} IdentifyLast(types: seq<WT.WorkbookType>, sheetNames: seq<string>)
    ensures var r := IdentifyWorkbook(types, sheetNames);
      && (r.Err? <==> sheetNames != [] && exists i :: 0 <= i < |types| && types[i].validSheet.None?)
      && (r.Err? ==> r.reason == NotAFunction)
      && (r == Ok(None) <==> forall i :: 0 <= i < |types| ==> Accepts(types[i], sheetNames) == Ok(false))
      && (r.Ok? && r.value.Some? ==>
            exists i :: 0 <= i < |types| && r.value == Some(types[i]) && Accepts(types[i], sheetNames) == Ok(true)
              && forall j :: i < j < |types| ==> Accepts(types[j], sheetNames) == Ok(false))
  {
    if types != [] {
      var init := types[..|types| - 1];
      IdentifyLast(init, sheetNames);
      assert forall i :: 0 <= i < |init| ==> init[i] == types[i];
    }
  }

  /** No entry of the table defines `validSheet`, so a workbook with sheets makes the legacy identification fail, and one without is not identified. */
  lemma IdentifyTable(sheetNames: seq<string>)
    ensures sheetNames != [] ==> IdentifyWorkbook(WT.Table, sheetNames).Err?
    ensures sheetNames == [] ==> IdentifyWorkbook(WT.Table, sheetNames) == Ok(None)
  {
    IdentifyLast(WT.Table, sheetNames);
    assert WT.Table[0].validSheet.None?;
  }

  // ---------------------------------------------------------------- the tournament id

  /** A destructured value with its default: an absent key reads as undefined. */
  function Field(info: Object<WP.Json>, k: string): WP.Json {
    var v := Get(info, k);
    if v.Some? then v.value else WP.Undefined
  }

  /** The text an array join gives an element: undefined joins as nothing. */
  function Rendered(j: WP.Json): string {
    match j
    case Undefined => ""
    case Str(s) => s
    case Strs(items) => Join(items, ",")
    case Other(rendered) => rendered
  }

  /**
   * `generateTournamentId`: the categories are joined first, so categories that
   * are not a list make it fail whatever the name; a missing or empty name
   * gives no id; a name that is not a text makes it fail.
   */
  function GenerateTournamentId(info: Object<WP.Json>): Result<Option<string>> {
    var tournamentName := Field(info, "tournamentName");
    var categories := Field(info, "categories");
    if categories.Str? || categories.Other? then Err("categories.join is not a function")
    else
      var categoryString := if categories.Strs? then Join(categories.items, "") else "";
      if tournamentName == WP.Undefined || tournamentName == WP.Str("") then Ok(None)
      else if !tournamentName.Str? then Err("tournamentName.split is not a function")
      else
        var name := Join(Split(tournamentName.text, ' '), "_");
        Ok(Some(Join([name, Rendered(Field(info, "city")), categoryString, Rendered(Field(info, "startDate"))], "_")))
  }

  lemma Join4(a: string, b: string, c: string, d: string, sep: string)
    ensures Join([a, b, c, d], sep) == a + sep + b + sep + c + sep + d
  {
    assert [a, b, c, d][1..] == [b, c, d];
    WT.Join3(b, c, d, sep);
  }

  /**
   * The id is the name with its spaces made underscores, then the city, the
   * joined categories and the start date, each after an underscore; it fails
   * exactly on categories that are not a list, or on a name that is neither
   * absent, empty nor a text.
   */
  lemma GenerateTournamentIdShape(info: Object<WP.Json>)
    ensures var r := GenerateTournamentId(info);
      var name := Field(info, "tournamentName");
      var categories := Field(info, "categories");
      && (r.Err? <==> categories.Str? || categories.Other? || name.Strs? || name.Other?)
      && (r == Ok(None) <==> !r.Err? && (name == WP.Undefined || name == WP.Str("")))
      && (r.Ok? && r.value.Some? ==>
            && name.Str? && name.text != ""
            && r.value.value == ReplaceChar(name.text, ' ', '_') + "_" + Rendered(Field(info, "city")) + "_"
                 + (if categories.Strs? then Join(categories.items, "") else "") + "_" + Rendered(Field(info, "startDate")))
  {
    var name := Field(info, "tournamentName");
    if name.Str? {
      JoinSplitReplace(name.text, ' ', '_');
      var categories := Field(info, "categories");
      Join4(Join(Split(name.text, ' '), "_"), Rendered(Field(info, "city")),
        if categories.Strs? then Join(categories.items, "") else "", Rendered(Field(info, "startDate")), "_");
    }
  }

  // ---------------------------------------------------------------- the sheet walk

  /** The tournament record: its draws, and the fields the information sheets set. */
  datatype Record = Record(draws: seq<Object<WP.Json>>, fields: Object<WP.Json>)

  const EmptyRecord: Record := Record([], [])

  /** How the parse ends without failing: the record is dispatched, or the profile is missing and nothing is. */
  datatype Outcome = Dispatched(record: Record) | MissingProfile(organization: string)

  /** `{ tournamentId }`: an absent id is assigned as undefined. */
  function IdValue(id: Option<string>): WP.Json {
    if id.Some? then WP.Str(id.value) else WP.Undefined
  }

  /** The body of the `forEach` for one sheet; a round robin sheet is processed but adds nothing to the record. */
  function ProcessSheet(env: WP.Env, processSheet: bool, record: Record, sheetName: string): Result<Record> {
    var sheetDefinition := env.identifySheet(sheetName);
    if sheetDefinition.None? then Ok(record)
    else if processSheet && sheetDefinition.value == WP.Knockout then Ok(record.(draws := record.draws + [env.processKnockOut(sheetName).drawInfo]))
    else if processSheet && sheetDefinition.value == WP.RoundRobin then Ok(record)
    else if processSheet && sheetDefinition.value == WP.Participants then Ok(record)
    else if sheetDefinition.value == WP.Information then
      var tournamentInfo := env.extractInfo(sheetName);
      var id := GenerateTournamentId(tournamentInfo);
      if id.Err? then Err(id.reason)
      else Ok(record.(fields := Assign(AssignAll(record.fields, tournamentInfo), "tournamentId", IdValue(id.value))))
    else Ok(record)
  }

  /** The record after the walk over `names`, with `admitted` the sheets to process; the first failure ends it. */
  function Walk(env: WP.Env, admitted: seq<string>, names: seq<string>): Result<Record> {
    if names == [] then Ok(EmptyRecord)
    else
      var previous := Walk(env, admitted, names[..|names| - 1]);
      if previous.Err? then previous
      else ProcessSheet(env, names[|names| - 1] in admitted, previous.value, names[|names| - 1])
  }

  /** `sheetsToProcess`: the valid sheets that pass the filter. */
  function SheetsToProcess(validSheet: string -> bool, storedFilter: Option<string>, sheetNames: seq<string>): (r: seq<string>)
    ensures forall name :: name in r <==> name in sheetNames && validSheet(name) && WP.PassesFilter(WP.LowerFilter(storedFilter), name)
  {
    var valid := Filter(sheetNames, validSheet);
    var r := Filter(valid, name => WP.PassesFilter(WP.LowerFilter(storedFilter), name));
    assert forall name :: name in r <==> name in sheetNames && validSheet(name) && WP.PassesFilter(WP.LowerFilter(storedFilter), name) by {
      forall name ensures name in r <==> name in sheetNames && validSheet(name) && WP.PassesFilter(WP.LowerFilter(storedFilter), name) {
        FilterMembers(sheetNames, validSheet, name);
        FilterMembers(valid, name => WP.PassesFilter(WP.LowerFilter(storedFilter), name), name);
      }
    }
    r
  }

  /** The legacy `spreadSheetParser`, once the workbook is read. */
  function ParseOf(env: WP.Env, types: seq<WT.WorkbookType>, storedFilter: Option<string>, sheetNames: seq<string>): Result<Outcome> {
    var workbookType := IdentifyWorkbook(types, sheetNames);
    if workbookType.Err? then Err(workbookType.reason)
    else if workbookType.value.None? then Ok(Dispatched(EmptyRecord))
    else if workbookType.value.value.profile.None? then Ok(MissingProfile(workbookType.value.value.organization))
    else
      var walk := Walk(env, SheetsToProcess(workbookType.value.value.validSheet.value, storedFilter, sheetNames), sheetNames);
      if walk.Err? then Err(walk.reason) else Ok(Dispatched(walk.value))
  }

  /** Once the walk has failed, the later sheets leave the failure as it is. */
  lemma {:induction false} WalkFailureStays(env: WP.Env, admitted: seq<string>, names: seq<string>, i: nat)
    requires i <= |names| && Walk(env, admitted, names[..i]).Err?
    ensures Walk(env, admitted, names) == Walk(env, admitted, names[..i])
  {
    if i < |names| {
      var init := names[..|names| - 1];
      assert init[..i] == names[..i];
      WalkFailureStays(env, admitted, init, i);
    } else {
      assert names[..i] == names;
    }
  }

  method SpreadSheetParser(env: WP.Env, types: seq<WT.WorkbookType>, storedFilter: Option<string>, sheetNames: seq<string>) returns (r: Result<Outcome>)
    ensures r == ParseOf(env, types, storedFilter, sheetNames)
  {
    var tournamentRecord := EmptyRecord;
    var workbookType := IdentifyWorkbook(types, sheetNames);
    if workbookType.Err? {
      return Err(workbookType.reason);
    }
    if workbookType.value.Some? {
      var profile := workbookType.value.value.profile;
      if profile.None? {
        return Ok(MissingProfile(workbookType.value.value.organization));
      }
      var sheetsToProcess := SheetsToProcess(workbookType.value.value.validSheet.value, storedFilter, sheetNames);
      for i := 0 to |sheetNames|
        invariant Walk(env, sheetsToProcess, sheetNames[..i]) == Ok(tournamentRecord)
      {
        assert sheetNames[..i + 1][..i] == sheetNames[..i];
        var sheetName := sheetNames[i];
        var sheetDefinition := env.identifySheet(sheetName);
        var processSheet := sheetName in sheetsToProcess;
        if sheetDefinition.None? {
        } else if processSheet && sheetDefinition.value == WP.Knockout {
          var drawInfo := env.processKnockOut(sheetName).drawInfo;
          tournamentRecord := tournamentRecord.(draws := tournamentRecord.draws + [drawInfo]);
        } else if processSheet && sheetDefinition.value == WP.RoundRobin {
        } else if processSheet && sheetDefinition.value == WP.Participants {
        } else if sheetDefinition.value == WP.Information {
          var tournamentInfo := env.extractInfo(sheetName);
          var id := GenerateTournamentId(tournamentInfo);
          if id.Err? {
            WalkFailureStays(env, sheetsToProcess, sheetNames, i + 1);
            return Err(id.reason);
          }
          tournamentRecord := tournamentRecord.(fields := Assign(AssignAll(tournamentRecord.fields, tournamentInfo), "tournamentId", IdValue(id.value)));
        }
      }
      assert sheetNames[..|sheetNames|] == sheetNames;
    }
    r := Ok(Dispatched(tournamentRecord));
  }

  // ---------------------------------------------------------------- what the walk collects

  /** A sheet that adds a draw: a knockout sheet that is processed. */
  predicate IsKnockoutSheet(env: WP.Env, admitted: seq<string>, name: string) {
    name in admitted && env.identifySheet(name) == Some(WP.Knockout)
  }

  /** An information sheet whose tournament id cannot be generated. */
  predicate FailsId(env: WP.Env, name: string) {
    WP.IsInfoSheet(env, name) && GenerateTournamentId(env.extractInfo(name)).Err?
  }

  /** One sheet fails exactly when it is an information sheet whose id fails; otherwise it adds its draw when it is a processed knockout sheet and changes the fields only when it is an information sheet. */
  lemma ProcessSheetStep(env: WP.Env, admitted: seq<string>, record: Record, name: string)
    ensures var r := ProcessSheet(env, name in admitted, record, name);
      && (r.Err? <==> FailsId(env, name))
      && (r.Ok? ==> r.value.draws == record.draws + (if IsKnockoutSheet(env, admitted, name) then [env.processKnockOut(name).drawInfo] else []))
      && (r.Ok? && !WP.IsInfoSheet(env, name) ==> r.value.fields == record.fields)
  {
  }

  /** The walk fails exactly when some information sheet's id fails; otherwise its draws are those of the processed knockout sheets, in workbook order. */
  lemma {:induction false} WalkDraws(env: WP.Env, admitted: seq<string>, names: seq<string>)
    ensures var w := Walk(env, admitted, names);
      var knockouts := Filter(names, name => IsKnockoutSheet(env, admitted, name));
      && (w.Err? <==> exists i :: 0 <= i < |names| && FailsId(env, names[i]))
      && (w.Ok? ==>
            && |w.value.draws| == |knockouts|
            && forall i :: 0 <= i < |knockouts| ==> w.value.draws[i] == env.processKnockOut(knockouts[i]).drawInfo)
  {
    if names != [] {
      var init := names[..|names| - 1];
      var name := names[|names| - 1];
      assert init + [name] == names;
      assert forall i :: 0 <= i < |init| ==> init[i] == names[i];
      WalkDraws(env, admitted, init);
      FilterAppend(init, name, name => IsKnockoutSheet(env, admitted, name));
      var previous := Walk(env, admitted, init);
      if previous.Ok? {
        ProcessSheetStep(env, admitted, previous.value, name);
      }
    }
  }

  /** The walk over one more sheet, when the walk so far succeeds. */
  lemma WalkSnoc(env: WP.Env, admitted: seq<string>, names: seq<string>, name: string)
    requires Walk(env, admitted, names).Ok?
    ensures Walk(env, admitted, names + [name]) == ProcessSheet(env, name in admitted, Walk(env, admitted, names).value, name)
  {
    assert (names + [name])[..|names|] == names;
  }

  /** An information sheet merges its information into the fields, then sets the tournament id. */
  lemma InfoStep(env: WP.Env, admitted: seq<string>, record: Record, name: string, k: string)
    requires WP.IsInfoSheet(env, name) && ProcessSheet(env, name in admitted, record, name).Ok?
    ensures var id := GenerateTournamentId(env.extractInfo(name));
      var fields := ProcessSheet(env, name in admitted, record, name).value.fields;
      && id.Ok?
      && Get(fields, "tournamentId") == Some(IdValue(id.value))
      && (k != "tournamentId" ==> Get(fields, k) == if LastFor(env.extractInfo(name), k).Some? then LastFor(env.extractInfo(name), k) else Get(record.fields, k))
  {
    var info := env.extractInfo(name);
    var id := GenerateTournamentId(info);
    var merged := AssignAll(record.fields, info);
    AssignGet(merged, "tournamentId", IdValue(id.value), k);
    AssignGet(merged, "tournamentId", IdValue(id.value), "tournamentId");
    AssignAllGet(record.fields, info, k);
  }

  /**
   * When the walk succeeds, every field other than `tournamentId` holds the
   * value the last information sheet setting it gives, and there are no fields
   * without information sheets.
   */
  lemma {:induction false} WalkFields(env: WP.Env, admitted: seq<string>, names: seq<string>, k: string)
    requires Walk(env, admitted, names).Ok? && k != "tournamentId"
    ensures var fields := Walk(env, admitted, names).value.fields;
      var infoSheets := Filter(names, name => WP.IsInfoSheet(env, name));
      && Get(fields, k) == LastFor(WP.InfoOf(env, infoSheets), k)
      && (infoSheets == [] ==> fields == [])
  {
    if names != [] {
      var init := names[..|names| - 1];
      var name := names[|names| - 1];
      assert init + [name] == names;
      var previous := Walk(env, admitted, init);
      assert previous.Ok?;
      WalkFields(env, admitted, init, k);
      WalkSnoc(env, admitted, init, name);
      FilterAppend(init, name, name => WP.IsInfoSheet(env, name));
      var infos := Filter(init, name => WP.IsInfoSheet(env, name));
      if WP.IsInfoSheet(env, name) {
        InfoStep(env, admitted, previous.value, name, k);
        WP.InfoOfSnoc(env, infos, name);
        LastForAppend(WP.InfoOf(env, infos), env.extractInfo(name), k);
      } else {
        ProcessSheetStep(env, admitted, previous.value, name);
        assert Filter(names, name => WP.IsInfoSheet(env, name)) == infos;
      }
    }
  }

  /** When the walk succeeds, `tournamentId` holds the id of the last information sheet. */
  lemma {:induction false} WalkTournamentId(env: WP.Env, admitted: seq<string>, names: seq<string>)
    requires Walk(env, admitted, names).Ok?
    ensures var fields := Walk(env, admitted, names).value.fields;
      var infoSheets := Filter(names, name => WP.IsInfoSheet(env, name));
      infoSheets != [] ==>
        var id := GenerateTournamentId(env.extractInfo(infoSheets[|infoSheets| - 1]));
        id.Ok? && Get(fields, "tournamentId") == Some(IdValue(id.value))
  {
    if names != [] {
      var init := names[..|names| - 1];
      var name := names[|names| - 1];
      assert init + [name] == names;
      var previous := Walk(env, admitted, init);
      assert previous.Ok?;
      WalkTournamentId(env, admitted, init);
      WalkSnoc(env, admitted, init, name);
      FilterAppend(init, name, name => WP.IsInfoSheet(env, name));
      if WP.IsInfoSheet(env, name) {
        InfoStep(env, admitted, previous.value, name, "tournamentId");
      } else {
        ProcessSheetStep(env, admitted, previous.value, name);
        assert Filter(names, name => WP.IsInfoSheet(env, name)) == Filter(init, name => WP.IsInfoSheet(env, name));
      }
    }
  }

  /** With the table as it stands, the legacy parser fails on every workbook with sheets and dispatches an empty record otherwise. */
  lemma ParseTable(env: WP.Env, storedFilter: Option<string>, sheetNames: seq<string>)
    ensures sheetNames != [] ==> ParseOf(env, WT.Table, storedFilter, sheetNames) == Err(NotAFunction)
    ensures sheetNames == [] ==> ParseOf(env, WT.Table, storedFilter, sheetNames) == Ok(Dispatched(EmptyRecord))
  {
    IdentifyTable(sheetNames);
    IdentifyLast(WT.Table, sheetNames);
  }

  /**
   * How the parse ends: a failed identification fails the parse; no type
   * identified dispatches a record without draws; a type without a profile
   * dispatches nothing; otherwise the parse fails exactly when some
   * information sheet's id fails, and the dispatched record holds one draw
   * per processed knockout sheet.
   */
  lemma ParseResult(env: WP.Env, types: seq<WT.WorkbookType>, storedFilter: Option<string>, sheetNames: seq<string>)
    ensures var r := ParseOf(env, types, storedFilter, sheetNames);
      var t := IdentifyWorkbook(types, sheetNames);
      && (t.Err? ==> r == Err(t.reason))
      && (t == Ok(None) ==> r == Ok(Dispatched(EmptyRecord)))
      && (r.Ok? && r.value.MissingProfile? <==> t.Ok? && t.value.Some? && t.value.value.profile.None?)
      && (t.Ok? && t.value.Some? && t.value.value.profile.Some? ==>
            var admitted := SheetsToProcess(t.value.value.validSheet.value, storedFilter, sheetNames);
            && (r.Err? <==> exists i :: 0 <= i < |sheetNames| && FailsId(env, sheetNames[i]))
            && (r.Ok? ==> r.value.Dispatched? && |r.value.record.draws| == |Filter(sheetNames, name => IsKnockoutSheet(env, admitted, name))|))
  {
    var t := IdentifyWorkbook(types, sheetNames);
    if t.Ok? && t.value.Some? && t.value.value.profile.Some? {
      WalkDraws(env, SheetsToProcess(t.value.value.validSheet.value, storedFilter, sheetNames), sheetNames);
    }
  }
}
