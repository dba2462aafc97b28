/**
 * The table of workbook types: for each organisation, the sheet names a
 * workbook of that type must contain, an optional matcher over the sheet
 * names, and the profile the parsers read. Also the profile's date and
 * gender post-processors.
 */
module WorkbookTypes {
  import opened Common
  import PR = ParticipantRows

  /** The sheet-name matchers the table defines. */
  datatype Matcher = CrMatcher | IndMatcher

  /** What the parsers read from a profile. */
  datatype ProfileData = ProfileData(
    providerId: Option<string>,
    rows: PR.Profile,
    doublesRowOffset: int,
    hasPostProcessors: bool)

  /**
   * An entry of `workbookTypes`. `validSheet` is the legacy parser's sheet
   * test; no entry of the table defines one.
   */
  datatype WorkbookType = WorkbookType(
    organization: string,
    mustContainSheetNames: seq<string>,
    matcher: Option<Matcher>,
    validSheet: Option<string -> bool>,
    profile: Option<ProfileData>)

  /** `gaps: { draw: { term: "Round 1", gap: 0 } }`, shared by every profile; none sets a preround gap. */
  const DrawGap: PR.GapRule := PR.GapRule("Round 1", 0)

  const Cr: WorkbookType := WorkbookType("CR", [], Some(CrMatcher), None,
    Some(ProfileData(Some("CR-XXXX"), PR.Profile([], [], Some(DrawGap), None), -1, true)))

  const Ind: WorkbookType := WorkbookType("IND", [], Some(IndMatcher), None,
    Some(ProfileData(Some("IND-0123"), PR.Profile(["winner"], ["[0-9,/, ]+pont", "umpire"], Some(DrawGap), None), -1, true)))

  const Mtsz: WorkbookType := WorkbookType("MTSZ", ["Altalanos"], None, None,
    Some(ProfileData(Some("MTSZ_07982e2f-eb41-42b2-9b75-da3054fe70a8"),
                     PR.Profile(["umpire", "0", "Győztes"], ["[0-9,/, ]+pont", "umpire"], Some(DrawGap), None), -1, true)))

  /** HTS names no provider and no skip expressions; an absent list skips nothing. */
  const Hts: WorkbookType := WorkbookType("HTS", ["Pocetna", "Rang-lista", "Izvjestaj"], None, None,
    Some(ProfileData(None, PR.Profile(["umpire"], [], Some(DrawGap), None), 1, false)))

  /** `workbookTypes`, in table order. */
  const Table: seq<WorkbookType> := [Cr, Ind, Mtsz, Hts]

  /**
   * The shape of the table:
   * - HTS takes a doubles partner's draw position from the next row, the other
   *   profiles from the previous one;
   * - CR and IND are recognised by their matcher alone;
   * - MTSZ and HTS are recognised by their required sheets alone;
   * - no entry defines the legacy `validSheet`.
   */
  lemma TableShape()
    ensures |Table| == 4
    ensures forall t :: t in Table ==> t.profile.Some? && t.validSheet.None?
    ensures forall t :: t in Table ==> (t.profile.value.doublesRowOffset == 1 <==> t.organization == "HTS")
    ensures forall t :: t in Table ==> t.profile.value.doublesRowOffset == 1 || t.profile.value.doublesRowOffset == -1
    ensures forall t :: t in Table ==> (t.matcher.Some? <==> t.mustContainSheetNames == [])
    ensures forall t :: t in Table ==> (t.matcher.Some? <==> t.organization == "CR" || t.organization == "IND")
  {
  }

  // ---------------------------------------------------------------- sheet name matchers

  /** The prefixes `/^U1?[VD]??/` can match: the optional parts may always match nothing. */
  predicate UPrefix(p: string) {
    p == "U" || p == "U1" || p == "UV" || p == "UD" || p == "U1V" || p == "U1D"
  }

  /** `/^U1?[VD]??/.test(name)` */
  predicate VTest(name: string) {
    exists k :: 1 <= k <= |name| && UPrefix(name[..k])
  }

  /** `/^[ABC] MASC/.test(name)` */
  predicate MTest(name: string) {
    |name| >= 6 && (name[0] == 'A' || name[0] == 'B' || name[0] == 'C') && name[1..6] == " MASC"
  }

  /** Since every optional part may match nothing, the first test accepts exactly the names that start with "U". */
  lemma VTestIsPrefixU(name: string)
    ensures VTest(name) <==> StartsWith(name, "U")
  {
    if StartsWith(name, "U") {
      assert UPrefix(name[..1]);
    }
    if VTest(name) {
      var k :| 1 <= k <= |name| && UPrefix(name[..k]);
      assert name[..k][0] == 'U';
      assert name[..1] == [name[0]];
    }
  }

  /** The CR matcher: some sheet name passes one of the two tests. */
  predicate CrMatches(sheetNames: seq<string>) {
    exists n :: n in sheetNames && (VTest(n) || MTest(n))
  }

  /** The IND matcher: `/Si Main/.test(name)` for some sheet name. */
  predicate IndMatches(sheetNames: seq<string>) {
    exists n :: n in sheetNames && Contains(n, "Si Main")
  }

  predicate Matches(m: Matcher, sheetNames: seq<string>) {
    match m
    case CrMatcher => CrMatches(sheetNames)
    case IndMatcher => IndMatches(sheetNames)
  }

  /** The CR matcher accepts exactly when some sheet name starts with "U" or reads "A MASC", "B MASC" or "C MASC" at its start. */
  lemma CrMatcherAccepts(sheetNames: seq<string>)
    ensures Matches(CrMatcher, sheetNames) <==>
      exists n :: n in sheetNames && (StartsWith(n, "U") || (|n| >= 6 && n[0] in "ABC" && n[1..6] == " MASC"))
  {
    forall n | n in sheetNames ensures VTest(n) <==> StartsWith(n, "U") {
      VTestIsPrefixU(n);
    }
  }

  // ---------------------------------------------------------------- post-processors

  /** What `dateParser` returns; `endDate` is absent when the text has no end part. */
  datatype Dates = Dates(startDate: string, endDate: Option<string>)

  /** The components of the end date: the start's first (3 − k) parts, then the k non-empty end parts. */
  function EndParts(date: string): seq<string>
    requires |Split(date, '-')| > 1
  {
    var splitDate := Split(date, '-');
    var endSplit := Filter(Split(splitDate[1], '.'), NonEmpty);
    JsSlice(Split(Join(Split(splitDate[0], '.'), "-"), '-'), 0, Some(3 - |endSplit|)) + endSplit
  }

  predicate NonEmpty(s: string) { s != "" }

  /** `profile.dateParser(date)` */
  function DateParser(date: string): Dates {
    var splitDate := Split(date, '-');
    var startDate := Join(Split(splitDate[0], '.'), "-");
    if |splitDate| > 1 && splitDate[1] != "" then Dates(startDate, Some(Join(EndParts(date), "-")))
    else Dates(startDate, None)
  }

  /**
   * A date without '-' has only a start date, the text with every '.' made
   * a '-'. With an end part, the start date is the first part so rewritten,
   * and the end date is made of the start's leading components completed by
   * the end's non-empty components.
   */
  lemma DateParserShape(date: string)
    ensures var r := DateParser(date);
      var start := Split(date, '-')[0];
      && r.startDate == ReplaceChar(start, '.', '-')
      && ('-' !in date ==> r == Dates(ReplaceChar(date, '.', '-'), None))
      && (r.endDate.Some? ==>
            var endSplit := Filter(Split(Split(date, '-')[1], '.'), NonEmpty);
            && r.endDate.value == Join(EndParts(date), "-")
            && EndParts(date) == JsSlice(Split(start, '.'), 0, Some(3 - |endSplit|)) + endSplit)
  {
    var splitDate := Split(date, '-');
    JoinSplitReplace(splitDate[0], '.', '-');
    if '-' !in date {
      SplitWithout(date, '-');
    }
    var parts := Split(splitDate[0], '.');
    assert splitDate[0] in splitDate;
    forall p | p in parts ensures '-' !in p {
      SplitMembers(splitDate[0], '.');
    }
    SplitJoin(parts, '-');
  }

  /**
   * A range within one month, such as "2020.06.15-17": the end date keeps the
   * start's year and month and takes the end's day.
   */
  lemma DateParserSameMonth(y: string, m: string, d: string, e: string)
    requires y != "" && m != "" && d != "" && e != ""
    requires '.' !in y && '.' !in m && '.' !in d && '.' !in e
    requires '-' !in y && '-' !in m && '-' !in d && '-' !in e
    ensures DateParser(y + "." + m + "." + d + "-" + e) == Dates(y + "-" + m + "-" + d, Some(y + "-" + m + "-" + e))
  {
    var start := y + "." + m + "." + d;
    var date := start + "-" + e;
    SplitTriple(y, m, d, '.');
    assert '-' !in start;
    SplitPair(start, e, '-');
    SplitTriple(y, m, d, '-');
    SplitWithout(e, '.');
    assert Split(date, '-') == [start, e];
    assert Split(start, '.') == [y, m, d];
    assert Join([y, m, d], "-") == y + "-" + m + "-" + d;
    assert Split(y + "-" + m + "-" + d, '-') == [y, m, d];
    assert Filter([e], NonEmpty) == [e];
    assert JsSlice([y, m, d], 0, Some(2)) == [y, m];
    assert EndParts(date) == [y, m] + [e] == [y, m, e];
    Join3(y, m, e, "-");
    assert DateParser(date).endDate == Some(Join([y, m, e], "-"));
    assert DateParser(date).startDate == y + "-" + m + "-" + d;
  }

  lemma SplitPair(a: string, b: string, c: char)
    requires c !in a && c !in b
    ensures Split(a + [c] + b, c) == [a, b]
  {
    SplitAppend(a, c, b);
    SplitWithout(b, c);
  }

  lemma SplitTriple(a: string, b: string, d: string, c: char)
    requires c !in a && c !in b && c !in d
    ensures Split(a + [c] + b + [c] + d, c) == [a, b, d]
    ensures Join([a, b, d], [c]) == a + [c] + b + [c] + d
  {
    var t := b + [c] + d;
    assert a + [c] + b + [c] + d == a + [c] + t;
    SplitAppend(a, c, t);
    SplitPair(b, d, c);
    assert Split(a + [c] + t, c) == [a] + [b, d];
    Join3(a, b, d, [c]);
  }

  lemma Join3(a: string, b: string, c: string, sep: string)
    ensures Join([a, b, c], sep) == a + sep + b + sep + c
  {
    assert [a, b, c][1..] == [b, c];
    assert [b, c][1..] == [c];
    assert Join([b, c], sep) == b + sep + c;
    assert a + sep + (b + sep + c) == a + sep + b + sep + c;
  }

  /** `profile.genderParser(value).gender` */
  function GenderParser(value: string): (gender: string)
    ensures gender == "M" <==> StartsWith(value, "F")
    ensures gender == "W" <==> StartsWith(value, "L")
    ensures gender == "X" <==> !StartsWith(value, "F") && !StartsWith(value, "L")
  {
    if StartsWith(value, "F") then "M" else if StartsWith(value, "L") then "W" else "X"
  }
}
