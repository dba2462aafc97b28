/**
 * Name keys and cell normalisation of the legacy tournament parser: the
 * "last, first initial" key, the cell text normalisation and the lookup of a
 * participant's draw position from the text of a draw cell.
 */
module LegacyNames {
  import opened Common

  /** The value of a `numberValue` cell: a number, '' when it does not parse, or no column at all. */
  datatype RrResult = Undefined | Blank | Number(n: int)

  /**
   * A participant read from the player rows. A draw position that is not a
   * number ('' in the script) is held as 0: both are falsy and both are 0 under `+`.
   */
  datatype LegacyPlayer = LegacyPlayer(fullName: string, lastFirstI: string, drawPosition: int, rrResult: RrResult)

  /** `parts.map(m => m.trim())` */
  function TrimAll(parts: seq<string>): seq<string> {
    seq(|parts|, i requires 0 <= i < |parts| => Trim(parts[i]))
  }

  predicate NonEmptyString(s: string) { s != "" }

  /** The key of a name that holds a comma, from its lower-cased text. */
  function CommaKey(lower: string): string {
    var components := TrimAll(Split(lower, ','));
    if |components| > 1 && components[1] != "" then components[0] + ", " + [components[1][0]] else ""
  }

  /** The key of a name without a comma, from its lower-cased text. */
  function WordsKey(lower: string): string {
    var words := Filter(Split(Split(lower, '[')[0], ' '), NonEmptyString);
    if words != [] then [words[0][0]] + ", " + words[|words| - 1] else ""
  }

  /**
   * `lastFirstI`: for "Last, First" the lower-cased "last, f"; for "First ... Last"
   * (a seed in brackets cut off) the lower-cased "f, last"; '' when there is nothing to abbreviate.
   */
  function LastFirstI(name: string): string {
    if ',' in name then CommaKey(ToLower(name)) else WordsKey(ToLower(name))
  }

  lemma LastFirstIOfEmpty()
    ensures LastFirstI("") == ""
  {
    assert ToLower("") == "";
    assert Filter(Split(Split("", '[')[0], ' '), NonEmptyString) == [];
  }

  /** The key does not depend on letter case. */
  lemma LastFirstICaseInsensitive(name: string)
    ensures LastFirstI(ToLower(name)) == LastFirstI(name)
  {
    LowerStableToLower(name);
    LowerStableToLower(ToLower(name));
    assert ToLower(ToLower(name)) == ToLower(name);
    assert (',' in ToLower(name)) == (',' in name) by {
      if ',' in name {
        var i :| 0 <= i < |name| && name[i] == ',';
        assert ToLower(name)[i] == ',';
      }
    }
  }

  /** The parts of "last, c" around its one comma. */
  lemma {:induction false} SplitCommaForm(last: string, c: char)
    requires ',' !in last && c != ','
    ensures Split(last + ", " + [c], ',') == [last, " " + [c]]
  {
    assert last + ", " + [c] == last + [','] + (" " + [c]);
    SplitAppend(last, ',', " " + [c]);
    assert ',' !in " " + [c];
    SplitWithout(" " + [c], ',');
  }

  /** The comma key of "last, c" for a trimmed last name and a character that is neither space nor comma. */
  lemma {:induction false} CommaKeyOfForm(last: string, c: char)
    requires ',' !in last && IsTrimmed(last) && !IsSpace(c) && c != ','
    ensures CommaKey(last + ", " + [c]) == last + ", " + [c]
  {
    SplitCommaForm(last, c);
    var parts := Split(last + ", " + [c], ',');
    var components := TrimAll(parts);
    assert components == [Trim(last), Trim(" " + [c])];
    TrimOfTrimmed(last);
    TrimSpaceThen(c, []);
    assert [' '] + [c] + [] == " " + [c];
    assert [c] + [] == [c];
    assert components == [last, [c]];
  }

  /** The first character of a trimmed, non-empty part is neither a space nor (the part being one of a split) a comma. */
  lemma {:induction false} KeyOfCommaForm(last: string, c: char)
    requires ',' !in last && IsTrimmed(last) && LowerStable(last)
    requires !IsSpace(c) && c != ',' && LowerChar(c) == c
    ensures LastFirstI(last + ", " + [c]) == last + ", " + [c]
  {
    var key := last + ", " + [c];
    assert key[|last|] == ',';
    assert LowerStable(key) by {
      forall i | 0 <= i < |key| ensures LowerChar(key[i]) == key[i] {
        if i < |last| { assert key[i] == last[i]; }
      }
    }
    LowerStableToLower(key);
    CommaKeyOfForm(last, c);
  }

  /** A "last, f" key is its own key: abbreviating a comma name twice changes nothing. */
  lemma LastFirstIIdempotent(name: string)
    requires ',' in name
    ensures LastFirstI(LastFirstI(name)) == LastFirstI(name)
  {
    var lower := ToLower(name);
    var parts := Split(lower, ',');
    var components := TrimAll(parts);
    if |components| > 1 && components[1] != "" {
      var last := components[0];
      var c := components[1][0];
      LowerStableToLower(name);
      SplitMembers(lower, ',');
      TrimMembers(parts[0]);
      TrimMembers(parts[1]);
      assert forall x :: x in last ==> x in lower;
      assert c in parts[1];
      assert c in lower;
      assert LowerStable(last) by {
        forall i | 0 <= i < |last| ensures LowerChar(last[i]) == last[i] {
          assert last[i] in lower;
          var j :| 0 <= j < |lower| && lower[j] == last[i];
        }
      }
      assert LowerChar(c) == c by {
        var j :| 0 <= j < |lower| && lower[j] == c;
      }
      assert ',' !in parts[0];
      assert c != ',' by { assert c in parts[1]; }
      KeyOfCommaForm(last, c);
    } else {
      LastFirstIOfEmpty();
    }
  }

  /** `tp.value`: the cell text trimmed, a first ",," reduced to ",", and the parts around commas re-joined with ", ". */
  function Value(cell: Option<string>): string {
    RejoinCommas(CollapseDoubleComma(Trim(if cell.Some? then cell.value else "")))
  }

  /** `tp.value` of every cell of a list. */
  function Values(texts: seq<string>): seq<string> {
    seq(|texts|, i requires 0 <= i < |texts| => Value(Some(texts[i])))
  }

  /** `val.replace(',,', ',')` when ",," occurs. */
  function CollapseDoubleComma(v: string): string {
    if Contains(v, ",,") then ReplaceFirst(v, ",,", ",") else v
  }

  /** `val.split(',').map(v => v.trim()).join(', ')` when a comma occurs. */
  function RejoinCommas(v: string): string {
    if ',' in v then Join(TrimAll(Split(v, ',')), ", ") else v
  }

  lemma {:induction false} ContainsMember(s: string, sub: string)
    requires Contains(s, sub) && sub != []
    ensures sub[0] in s
  {
    if StartsWith(s, sub) {
      assert s[0] == sub[0];
    } else {
      ContainsMember(s[1..], sub);
    }
  }

  /** A cell without a comma is only trimmed. */
  lemma ValueWithoutComma(text: string)
    requires ',' !in text
    ensures Value(Some(text)) == Trim(text)
  {
    TrimMembers(text);
    var v := Trim(text);
    if Contains(v, ",,") {
      ContainsMember(v, ",,");
    }
    assert CollapseDoubleComma(v) == v;
  }

  predicate CommasSpaced(r: string) {
    forall i :: 0 <= i < |r| && r[i] == ',' ==> i + 1 < |r| && r[i + 1] == ' '
  }

  /** In a joined list of comma-free parts every comma is followed by a space. */
  lemma {:induction false} JoinedCommasSpaced(parts: seq<string>)
    requires forall i :: 0 <= i < |parts| ==> ',' !in parts[i]
    ensures CommasSpaced(Join(parts, ", "))
  {
    if |parts| == 1 {
      assert Join(parts, ", ") == parts[0];
      assert forall i :: 0 <= i < |parts[0]| ==> parts[0][i] in parts[0];
    } else if |parts| > 1 {
      JoinedCommasSpaced(parts[1..]);
      var rest := Join(parts[1..], ", ");
      var r := Join(parts, ", ");
      assert r == parts[0] + ", " + rest;
      var n := |parts[0]|;
      assert r[n] == ',' && r[n + 1] == ' ';
      forall i | 0 <= i < |r| && r[i] == ',' ensures i + 1 < |r| && r[i + 1] == ' ' {
        if i > n + 1 {
          var k := i - n - 2;
          assert r[i] == rest[k];
          assert rest[k] == ',';
          assert r[i + 1] == rest[k + 1];
        }
      }
    }
  }

  lemma TrimAllCommaFree(parts: seq<string>)
    requires forall i :: 0 <= i < |parts| ==> ',' !in parts[i]
    ensures forall i :: 0 <= i < |parts| ==> ',' !in TrimAll(parts)[i]
  {
    forall i | 0 <= i < |parts| ensures ',' !in TrimAll(parts)[i] {
      TrimMembers(parts[i]);
    }
  }

  lemma RejoinCommasSpaced(v: string)
    ensures CommasSpaced(RejoinCommas(v))
  {
    if ',' !in v {
      assert forall i :: 0 <= i < |v| ==> v[i] in v;
    } else {
      var sp := Split(v, ',');
      assert forall i :: 0 <= i < |sp| ==> ',' !in sp[i] by {
        forall i | 0 <= i < |sp| ensures ',' !in sp[i] {
          assert sp[i] in sp;
        }
      }
      TrimAllCommaFree(sp);
      JoinedCommasSpaced(TrimAll(sp));
    }
  }

  /** Every comma of a normalised cell text is followed by a space, so ",," never survives. */
  lemma ValueCommasSpaced(cell: Option<string>)
    ensures CommasSpaced(Value(cell))
  {
    RejoinCommasSpaced(CollapseDoubleComma(Trim(if cell.Some? then cell.value else "")));
  }

  // ---------------------------------------------------------------- draw position lookup

  /** The helper the lookup calls: `normalizeDiacritics`. */
  type Normalizer = string -> string

  predicate ExactName(nd: Normalizer, query: string, p: LegacyPlayer) {
    p.fullName != "" && nd(p.fullName) == nd(query)
  }

  predicate SameKey(key: string, p: LegacyPlayer) {
    p.lastFirstI != "" && p.lastFirstI == key
  }

  /**
   * `tp.drawPosition`: the draw position of the idx-th participant whose
   * diacritic-normalised full name equals that of `fullName`; failing that, of
   * the first participant with the same "last, f" key; failing that, undefined.
   */
  function DrawPosition(fullName: string, players: seq<LegacyPlayer>, idx: nat, nd: Normalizer): Option<int> {
    var exact := Filter(players, p => ExactName(nd, fullName, p));
    if idx < |exact| then Some(exact[idx].drawPosition)
    else
      var key := LastFirstI(fullName);
      var byKey := Filter(players, p => SameKey(key, p));
      if byKey != [] then Some(byKey[0].drawPosition) else None
  }

  /** With at least idx + 1 exact-name matches, the one found has exactly idx of them before it. */
  lemma DrawPositionExact(fullName: string, players: seq<LegacyPlayer>, idx: nat, nd: Normalizer)
    requires idx < |Filter(players, (p: LegacyPlayer) => ExactName(nd, fullName, p))|
    ensures exists i ::
      && 0 <= i < |players| && ExactName(nd, fullName, players[i])
      && |Filter(players[..i], (p: LegacyPlayer) => ExactName(nd, fullName, p))| == idx
      && DrawPosition(fullName, players, idx, nd) == Some(players[i].drawPosition)
  {
    FilterNth(players, (p: LegacyPlayer) => ExactName(nd, fullName, p), idx);
  }

  /** The first participant whose key matches, when there is one. */
  lemma FirstWithKey(players: seq<LegacyPlayer>, key: string) returns (j: nat)
    requires Filter(players, (p: LegacyPlayer) => SameKey(key, p)) != []
    ensures j < |players| && SameKey(key, players[j])
    ensures forall k :: 0 <= k < j ==> !SameKey(key, players[k])
    ensures Filter(players, (p: LegacyPlayer) => SameKey(key, p))[0] == players[j]
  {
    var keyFilter := (p: LegacyPlayer) => SameKey(key, p);
    FilterNth(players, keyFilter, 0);
    j :| 0 <= j < |players| && keyFilter(players[j]) && |Filter(players[..j], keyFilter)| == 0 && Filter(players, keyFilter)[0] == players[j];
    FilterEmptyIffNone(players[..j], keyFilter);
    assert forall k :: 0 <= k < j ==> players[..j][k] == players[k];
  }

  /** Past the exact-name matches, the first participant with the same key is found. */
  lemma DrawPositionByKey(fullName: string, players: seq<LegacyPlayer>, idx: nat, nd: Normalizer)
    requires idx >= |Filter(players, (p: LegacyPlayer) => ExactName(nd, fullName, p))|
    requires exists j :: 0 <= j < |players| && SameKey(LastFirstI(fullName), players[j])
    ensures exists j ::
      && 0 <= j < |players| && SameKey(LastFirstI(fullName), players[j])
      && (forall k :: 0 <= k < j ==> !SameKey(LastFirstI(fullName), players[k]))
      && DrawPosition(fullName, players, idx, nd) == Some(players[j].drawPosition)
  {
    var key := LastFirstI(fullName);
    FilterEmptyIffNone(players, (p: LegacyPlayer) => SameKey(key, p));
    var j := FirstWithKey(players, key);
  }

  /** Nothing is found exactly when there are too few exact-name matches and no participant has the same key. */
  lemma DrawPositionNone(fullName: string, players: seq<LegacyPlayer>, idx: nat, nd: Normalizer)
    ensures DrawPosition(fullName, players, idx, nd).None? <==>
      idx >= |Filter(players, (p: LegacyPlayer) => ExactName(nd, fullName, p))|
      && forall j :: 0 <= j < |players| ==> !SameKey(LastFirstI(fullName), players[j])
  {
    var key := LastFirstI(fullName);
    FilterEmptyIffNone(players, (p: LegacyPlayer) => SameKey(key, p));
  }
}
