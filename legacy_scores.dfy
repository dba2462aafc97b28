/**
 * Score helpers of the legacy tournament parser: the set tally that decides
 * which side won, and the reversal that turns a score round to the other side.
 */
module LegacyScores {
  import opened Common

  // ---------------------------------------------------------------- determineWinner

  /**
   * The side a set counts for in the tally: none for a set without digits;
   * otherwise its '-' parts' first digit runs are compared and side 0 gets the set
   * only if the first is strictly greater (a missing second number compares as NaN,
   * so side 1). A part without digits makes `exec` return null: the script throws.
   */
  function SetSide(sc: string): Result<Option<nat>> {
    if !HasDigit(sc) then Ok(None)
    else
      var parts := Split(sc, '-');
      if !AllHaveDigits(parts) then Err("TypeError: no digits in a part of a sc score")
      else
        var a := DigitsValue(FirstDigitRun(parts[0]).value);
        if |parts| < 2 then Ok(Some(1))
        else
          var b := DigitsValue(FirstDigitRun(parts[1]).value);
          Ok(Some(if a > b then 0 else 1))
  }

  predicate AllHaveDigits(parts: seq<string>) {
    forall i :: 0 <= i < |parts| ==> HasDigit(parts[i])
  }

  datatype Tally = Tally(side0: nat, side1: nat)

  /** `tally` after the `forEach` over the sets. */
  function TallySets(sets: seq<string>): Result<Tally> {
    if sets == [] then Ok(Tally(0, 0))
    else
      match SetSide(sets[0])
      case Err(e) => Err(e)
      case Ok(side) =>
        match TallySets(sets[1..])
        case Err(e) => Err(e)
        case Ok(t) =>
          Ok(if side == Some(0) then t.(side0 := t.side0 + 1)
             else if side == Some(1) then t.(side1 := t.side1 + 1)
             else t)
  }

  /** `determineWinner`: 0 or 1 for the side with more sets, None on an equal tally. */
  function DetermineWinner(score: string): Result<Option<nat>> {
    match TallySets(Split(score, ' '))
    case Err(e) => Err(e)
    case Ok(t) => Ok(if t.side0 > t.side1 then Some(0) else if t.side1 > t.side0 then Some(1) else None)
  }

  /** A set the tally gives to `side`. */
  predicate WonBy(side: nat, sc: string) {
    SetSide(sc) == Ok(Some(side))
  }

  /**
   * The tally fails exactly when some set makes the script throw; otherwise it
   * counts, for each side, the sets that side won. A set without digits counts
   * for neither.
   */
  lemma {:induction false} TallyCounts(sets: seq<string>)
    ensures TallySets(sets).Err? <==> exists i :: 0 <= i < |sets| && SetSide(sets[i]).Err?
    ensures TallySets(sets).Ok? ==>
      TallySets(sets).value == Tally(|Filter(sets, sc => WonBy(0, sc))|, |Filter(sets, sc => WonBy(1, sc))|)
  {
    if sets != [] {
      TallyCounts(sets[1..]);
      assert forall i :: 1 <= i < |sets| ==> sets[i] == sets[1..][i - 1];
    }
  }

  /**
   * `determineWinner` gives side 0 when side 0 won more sets, side 1 when side 1
   * did, and nothing on an equal count; it fails exactly when a set does.
   */
  lemma DetermineWinnerCounts(score: string)
    ensures var sets := Split(score, ' ');
      && (DetermineWinner(score).Err? <==> exists i :: 0 <= i < |sets| && SetSide(sets[i]).Err?)
      && (DetermineWinner(score).Ok? ==>
            var won0 := |Filter(sets, sc => WonBy(0, sc))|;
            var won1 := |Filter(sets, sc => WonBy(1, sc))|;
            && (DetermineWinner(score).value == Some(0) <==> won0 > won1)
            && (DetermineWinner(score).value == Some(1) <==> won1 > won0)
            && (DetermineWinner(score).value.None? <==> won0 == won1))
  {
    TallyCounts(Split(score, ' '));
  }

  // ---------------------------------------------------------------- reverseScore

  /** A "(digits)" tiebreak starts the string. */
  predicate TiebreakStart(s: string) {
    |s| >= 1 && s[0] == '(' &&
    var d := LeadingDigits(s[1..]);
    d != [] && 1 + |d| < |s| && s[1 + |d|] == ')'
  }

  /** `/\((\d+)\)/.exec(s)`: the leftmost "(digits)" of the string. */
  function Tiebreak(s: string): (r: Option<string>)
    ensures r.Some? ==> IsTiebreak(r.value) && forall x :: x in r.value ==> x in s
  {
    if s == [] then None
    else if TiebreakStart(s) then
      var d := LeadingDigits(s[1..]);
      var t := "(" + d + ")";
      assert t[1..|t| - 1] == d;
      assert forall x :: x in d ==> x in s by {
        forall x | x in d ensures x in s {
          var j :| 0 <= j < |d| && d[j] == x;
          assert s[1 + j] == x;
        }
      }
      assert s[1 + |d|] in s;
      Some(t)
    else
      var r := Tiebreak(s[1..]);
      assert forall x :: x in s[1..] ==> x in s;
      r
  }

  /** One set of `reverseScore`: the text before any '(' reversed if it holds a digit, then the tiebreak re-appended. */
  function ReverseSet(sc: string): string {
    var tiebreak := Tiebreak(sc);
    var score := Split(sc, '(')[0];
    var scores := if HasDigit(score) then Reverse(score) else score;
    scores + (if tiebreak.Some? then tiebreak.value else "")
  }

  function ReverseSets(sets: seq<string>): (r: seq<string>)
    ensures |r| == |sets| && forall i :: 0 <= i < |sets| ==> r[i] == ReverseSet(sets[i])
  {
    if sets == [] then [] else [ReverseSet(sets[0])] + ReverseSets(sets[1..])
  }

  /** `reverseScore(score, split)` */
  function ReverseScore(score: string, sep: char): string {
    Join(ReverseSets(Split(score, sep)), [sep])
  }

  /** A reversed set is made of the set's own characters. */
  lemma ReverseSetMembers(sc: string)
    ensures forall x :: x in ReverseSet(sc) ==> x in sc
  {
    var tiebreak := Tiebreak(sc);
    var score := Split(sc, '(')[0];
    SplitMembers(sc, '(');
    assert score in Split(sc, '(');
    ReverseMembers(score);
  }

  /**
   * `reverseScore` keeps the separator and the number of sets: splitting its
   * result again gives exactly the reversed sets, one per original set.
   */
  lemma ReverseScoreSets(score: string, sep: char)
    ensures Split(ReverseScore(score, sep), sep) == ReverseSets(Split(score, sep))
  {
    var sets := Split(score, sep);
    var r := ReverseSets(sets);
    forall i | 0 <= i < |r| ensures sep !in r[i] {
      ReverseSetMembers(sets[i]);
      assert sets[i] in sets;
    }
    SplitJoin(r, sep);
  }

  /** A set without digits and without '(' passes through unchanged. */
  lemma ReverseSetPlain(sc: string)
    requires !HasDigit(sc) && '(' !in sc
    ensures ReverseSet(sc) == sc
  {
    SplitWithout(sc, '(');
  }

  /** A "(digits)" tail, the only thing `reverseScore` keeps after a '('. */
  predicate IsTiebreak(t: string) {
    |t| >= 3 && t[0] == '(' && t[|t| - 1] == ')' && AllDigits(t[1..|t| - 1])
  }

  /** A set `reverseScore` can turn back: text without '(' and optionally one tiebreak at the end. */
  predicate Canonical(pre: string, tail: string) {
    '(' !in pre && (tail == "" || IsTiebreak(tail))
  }

  lemma TiebreakOfTiebreak(t: string)
    requires IsTiebreak(t)
    ensures TiebreakStart(t) && Tiebreak(t) == Some(t)
  {
    var body := t[1..|t| - 1];
    assert t[1..] == body + [')'];
    LeadingDigitsAll(body, [')']);
    assert "(" + body + ")" == t;
  }

  lemma {:induction false} LeadingDigitsAll(d: string, rest: string)
    requires AllDigits(d) && (rest == [] || !IsDigit(rest[0]))
    ensures LeadingDigits(d + rest) == d
  {
    if d == [] {
      assert d + rest == rest;
    } else {
      assert (d + rest)[1..] == d[1..] + rest;
      LeadingDigitsAll(d[1..], rest);
      assert [d[0]] + d[1..] == d;
    }
  }

  lemma {:induction false} TiebreakSkips(pre: string, tail: string)
    requires '(' !in pre
    ensures Tiebreak(pre + tail) == Tiebreak(tail)
  {
    if pre != [] {
      assert (pre + tail)[0] == pre[0];
      assert !TiebreakStart(pre + tail);
      assert (pre + tail)[1..] == pre[1..] + tail;
      TiebreakSkips(pre[1..], tail);
    } else {
      assert pre + tail == tail;
    }
  }

  lemma FirstSplitPart(pre: string, tail: string)
    requires '(' !in pre && (tail == "" || tail[0] == '(')
    ensures Split(pre + tail, '(')[0] == pre
  {
    if tail == "" {
      assert pre + tail == pre;
      SplitWithout(pre, '(');
    } else {
      assert pre + tail == pre + ['('] + tail[1..];
      SplitAppend(pre, '(', tail[1..]);
    }
  }

  /** How `reverseScore` acts on a canonical set: the text is reversed if it holds a digit, the tiebreak kept. */
  lemma ReverseCanonical(pre: string, tail: string)
    requires Canonical(pre, tail)
    ensures ReverseSet(pre + tail) == (if HasDigit(pre) then Reverse(pre) else pre) + tail
  {
    TiebreakSkips(pre, tail);
    FirstSplitPart(pre, tail);
    if tail != "" {
      TiebreakOfTiebreak(tail);
    } else {
      assert Tiebreak("") == None;
    }
  }

  lemma HasDigitReverse(s: string)
    ensures HasDigit(Reverse(s)) == HasDigit(s)
  {
    if HasDigit(s) {
      var i :| 0 <= i < |s| && IsDigit(s[i]);
      assert Reverse(s)[|s| - 1 - i] == s[i];
    }
    if HasDigit(Reverse(s)) {
      var i :| 0 <= i < |s| && IsDigit(Reverse(s)[i]);
    }
  }

  /** Applying `reverseScore` twice to a canonical set gives the set back. */
  lemma ReverseSetInvolution(pre: string, tail: string)
    requires Canonical(pre, tail)
    ensures ReverseSet(ReverseSet(pre + tail)) == pre + tail
  {
    ReverseCanonical(pre, tail);
    var pre' := if HasDigit(pre) then Reverse(pre) else pre;
    ReverseMembers(pre);
    assert '(' !in pre';
    ReverseCanonical(pre', tail);
    HasDigitReverse(pre);
    ReverseReverse(pre);
  }

  /** A set of the form "a-b" (with an optional tiebreak) becomes "b-a" when a and b are single digits. */
  lemma ReverseSwapsDigits(a: char, b: char, tail: string)
    requires IsDigit(a) && IsDigit(b) && (tail == "" || IsTiebreak(tail))
    ensures ReverseSet([a, '-', b] + tail) == [b, '-', a] + tail
  {
    var pre := [a, '-', b];
    assert HasDigit(pre) by { assert IsDigit(pre[0]); }
    ReverseCanonical(pre, tail);
    assert Reverse(pre) == [b, '-', a];
  }

  // ---------------------------------------------------------------- the tally of a reversed score

  /** A set "a-b" of two different single digits, optionally followed by a tiebreak. */
  predicate StrictSet(sc: string) {
    |sc| >= 3 && IsDigit(sc[0]) && sc[1] == '-' && IsDigit(sc[2]) && sc[0] != sc[2] &&
    (sc[3..] == "" || IsTiebreak(sc[3..]))
  }

  predicate StrictScore(score: string) {
    forall i :: 0 <= i < |Split(score, ' ')| ==> StrictSet(Split(score, ' ')[i])
  }

  function Flip(side: Option<nat>): Option<nat> {
    match side
    case None => None
    case Some(s) => Some(if s == 0 then 1 else 0)
  }

  lemma {:induction false} NoDashInTiebreak(t: string)
    requires t == "" || IsTiebreak(t)
    ensures '-' !in t && (t == "" || !IsDigit(t[0]))
  {
    if t != "" {
      forall i | 0 <= i < |t| ensures t[i] != '-' {
        if 0 < i < |t| - 1 {
          assert t[i] == t[1..|t| - 1][i - 1];
        }
      }
    }
  }

  lemma SingleDigit(c: char)
    requires IsDigit(c)
    ensures HasDigit([c]) && FirstDigitRun([c]) == Some([c]) && DigitsValue([c]) == c as int - '0' as int
  {
    var s: string := [c];
    assert IsDigit(s[0]);
    assert s[..0] == [];
    assert s[1..] == [];
    assert LeadingDigits(s[1..]) == [];
    assert LeadingDigits(s) == s;
    assert FirstDigitRun(s) == Some(LeadingDigits(s));
  }

  /** The '-' parts of a strict set: the first digit, and the second digit with the tiebreak. */
  lemma StrictSetParts(sc: string)
    requires StrictSet(sc)
    ensures Split(sc, '-') == [[sc[0]], [sc[2]] + sc[3..]]
  {
    var tail := sc[3..];
    NoDashInTiebreak(tail);
    assert sc == [sc[0]] + ['-'] + ([sc[2]] + tail);
    SplitAppend([sc[0]], '-', [sc[2]] + tail);
    SplitWithout([sc[2]] + tail, '-');
  }

  lemma StrictSetSide(sc: string)
    requires StrictSet(sc)
    ensures SetSide(sc) == Ok(Some(if sc[0] > sc[2] then 0 else 1))
  {
    var tail := sc[3..];
    NoDashInTiebreak(tail);
    assert HasDigit(sc) by { assert IsDigit(sc[0]); }
    StrictSetParts(sc);
    var second := [sc[2]] + tail;
    assert HasDigit(second) by { assert IsDigit(second[0]); }
    LeadingDigitsAll([sc[2]], tail);
    assert FirstDigitRun(second) == Some([sc[2]]);
    SingleDigit(sc[0]);
    SingleDigit(sc[2]);
  }

  /** Reversing a strict set hands it to the other side. */
  lemma ReverseStrictSet(sc: string)
    requires StrictSet(sc)
    ensures StrictSet(ReverseSet(sc))
    ensures SetSide(ReverseSet(sc)) == Ok(Flip(Some(if sc[0] > sc[2] then 0 else 1)))
  {
    var tail := sc[3..];
    assert sc == [sc[0], '-', sc[2]] + tail;
    ReverseSwapsDigits(sc[0], sc[2], tail);
    var r := [sc[2], '-', sc[0]] + tail;
    assert r[3..] == tail;
    StrictSetSide(sc);
    StrictSetSide(r);
  }

  lemma {:induction false} TallyReversed(sets: seq<string>)
    requires forall i :: 0 <= i < |sets| ==> StrictSet(sets[i])
    ensures TallySets(sets).Ok? && TallySets(ReverseSets(sets)).Ok?
    ensures TallySets(ReverseSets(sets)).value == Tally(TallySets(sets).value.side1, TallySets(sets).value.side0)
  {
    if sets != [] {
      TallyReversed(sets[1..]);
      StrictSetSide(sets[0]);
      ReverseStrictSet(sets[0]);
      assert ReverseSets(sets)[1..] == ReverseSets(sets[1..]);
    }
  }

  /**
   * For scores made of strict sets, the tally of the reversed score is the
   * tally with the sides exchanged: `reverseScore` turns a side-1 win into a
   * side-0 win and keeps an equal tally equal.
   */
  lemma DetermineWinnerOfReversed(score: string)
    requires StrictScore(score)
    ensures DetermineWinner(score).Ok?
    ensures DetermineWinner(ReverseScore(score, ' ')) == Ok(Flip(DetermineWinner(score).value))
  {
    var sets := Split(score, ' ');
    TallyReversed(sets);
    ReverseScoreSets(score, ' ');
  }
}
