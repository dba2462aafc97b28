/**
 * Knockout round assembly of the legacy tournament parser: the bisection that
 * finds rounds embedded in one column, the entry round of players who never
 * won, and the naming of rounds and losers.
 */
module LegacyRounds {
  import opened Common
  import CS = ColumnScan
  import opened LegacyNames

  // ---------------------------------------------------------------- findMiddle, findMiddles

  /**
   * `findMiddle`: `arr[Math.round((arr.length - 1) / 2)]`. Rounding a half up
   * makes this the element at `|part| / 2`: the middle of an odd list and the
   * first element of the second half of an even one; an empty list has none.
   */
  function FindMiddle(part: seq<nat>): Option<nat> {
    if part == [] then None else Some(part[|part| / 2])
  }

  /** An odd list has as many elements before its middle as after it. */
  lemma FindMiddleBalanced(part: seq<nat>)
    requires |part| % 2 == 1
    ensures FindMiddle(part) == Some(part[|part[..|part| / 2]|])
    ensures |part[..|part| / 2]| == |part[|part| / 2 + 1..]|
  {
  }

  /**
   * The two parts the script cuts around a middle. It slices at the middle's
   * VALUE, not at its position; an undefined middle slices nothing away
   * (`slice(0, undefined)` and `slice(NaN)` both copy the whole part).
   */
  function Halves(part: seq<nat>, middle: Option<nat>): (seq<nat>, seq<nat>) {
    match middle
    case None => (part, part)
    case Some(m) => (JsSlice(part, 0, Some(m)), JsSlice(part, m + 1, None))
  }

  /** One pass of the `forEach` over the parts: their middles, and the halves in order. */
  function Level(parts: seq<seq<nat>>): (r: (seq<Option<nat>>, seq<seq<nat>>))
    ensures |r.0| == |parts| && |r.1| == 2 * |parts|
  {
    if parts == [] then ([], [])
    else
      var prev := Level(parts[..|parts| - 1]);
      var part := parts[|parts| - 1];
      var m := FindMiddle(part);
      var h := Halves(part, m);
      (prev.0 + [m], prev.1 + [h.0, h.1])
  }

  lemma LevelSingle(part: seq<nat>)
    ensures Level([part]) == ([FindMiddle(part)], [Halves(part, FindMiddle(part)).0, Halves(part, FindMiddle(part)).1])
  {
    var ps := [part];
    var e: seq<seq<nat>> := [];
    assert ps[..0] == e;
    assert ps[|ps| - 1] == part;
    assert Level(e) == ([], []);
    var h := Halves(part, FindMiddle(part));
    assert Level(ps) == (Level(ps[..0]).0 + [FindMiddle(part)], Level(ps[..0]).1 + [h.0, h.1]);
    assert Level(e).1 + [h.0, h.1] == [h.0, h.1];
    assert Level(e).0 + [FindMiddle(part)] == [FindMiddle(part)];
  }

  lemma LevelSnoc(parts: seq<seq<nat>>, part: seq<nat>)
    ensures Level(parts + [part]) == (Level(parts).0 + [FindMiddle(part)],
      Level(parts).1 + [Halves(part, FindMiddle(part)).0, Halves(part, FindMiddle(part)).1])
  {
    assert (parts + [part])[..|parts|] == parts;
  }

  /** `number` more passes starting from `parts`, with `middles` the last pass's middles so far. */
  function Passes(parts: seq<seq<nat>>, number: nat, middles: Option<seq<Option<nat>>>): Option<seq<Option<nat>>>
    decreases number
  {
    if number == 0 then middles
    else
      var l := Level(parts);
      Passes(l.1, number - 1, Some(l.0))
  }

  /** `findMiddles(arr, number)`: [] for an even list, else the middles of the number-th bisection (undefined when number is 0). */
  function Middles(arr: seq<nat>, number: nat): Option<seq<Option<nat>>> {
    if |arr| % 2 == 0 then Some([]) else Passes([arr], number, None)
  }

  /**
   * The `forEach` over the parts: each part's middle and its two halves, in order.
   * The script reassigns `parts = more_parts` inside the loop; as `forEach`
   * walks the array it started with, that only matters once the loop is over.
   */
  method Bisect(parts: seq<seq<nat>>) returns (ms: seq<Option<nat>>, moreParts: seq<seq<nat>>)
    ensures (ms, moreParts) == Level(parts)
  {
    ms := [];
    moreParts := [];
    for j := 0 to |parts|
      invariant (ms, moreParts) == Level(parts[..j])
    {
      var part := parts[j];
      var middle := FindMiddle(part);
      ms := ms + [middle];
      var h := Halves(part, middle);
      ghost var before := moreParts;
      moreParts := moreParts + [h.0];
      moreParts := moreParts + [h.1];
      assert moreParts == before + [h.0, h.1];
      assert parts[..j + 1] == parts[..j] + [part];
      LevelSnoc(parts[..j], part);
    }
    assert parts[..|parts|] == parts;
  }

  /** `findMiddles`, as the script's loops. */
  method FindMiddles(arr: seq<nat>, number: nat) returns (r: Option<seq<Option<nat>>>)
    ensures r == Middles(arr, number)
  {
    if |arr| % 2 == 0 {
      return Some([]);
    }
    var parts := [arr];
    var middles: Option<seq<Option<nat>>> := None;
    var n := number;
    while n > 0
      invariant Passes(parts, n, middles) == Passes([arr], number, None)
    {
      var ms;
      ms, parts := Bisect(parts);
      middles := Some(ms);
      n := n - 1;
    }
    r := middles;
  }

  lemma {:induction false} PassesCount(parts: seq<seq<nat>>, number: nat, middles: Option<seq<Option<nat>>>)
    requires number >= 1
    ensures Passes(parts, number, middles).Some?
    ensures |Passes(parts, number, middles).value| == Pow2(number - 1) * |parts|
    decreases number
  {
    if number > 1 {
      var l := Level(parts);
      PassesCount(l.1, number - 1, Some(l.0));
      DoubleTimes(Pow2(number - 2), |parts|);
    }
  }

  lemma DoubleTimes(p: nat, n: nat)
    ensures p * (2 * n) == (2 * p) * n
  {
  }

  /** The number-th bisection of an odd list has 2^(number-1) middles, one per part. */
  lemma MiddlesCount(arr: seq<nat>, number: nat)
    requires |arr| % 2 == 1 && number >= 1
    ensures Middles(arr, number).Some? && |Middles(arr, number).value| == Pow2(number - 1)
  {
    PassesCount([arr], number, None);
  }

  /** The first bisection finds the list's middle. */
  lemma FirstMiddle(arr: seq<nat>)
    requires |arr| % 2 == 1
    ensures Middles(arr, 1) == Some([Some(arr[|arr| / 2])])
  {
    LevelSingle(arr);
  }

  lemma SliceInRange<T>(s: seq<T>, k: nat)
    requires k <= |s|
    ensures JsSlice(s, 0, Some(k)) == s[..k] && JsSlice(s, k, None) == s[k..]
  {
  }

  lemma SevenFirstPass()
    ensures Level([[0, 1, 2, 3, 4, 5, 6]]) == ([Some(3)], [[0, 1, 2], [4, 5, 6]])
  {
    var arr: seq<nat> := [0, 1, 2, 3, 4, 5, 6];
    SliceInRange(arr, 3);
    SliceInRange(arr, 4);
    LevelSingle(arr);
    assert arr[..3] == [0, 1, 2] && arr[4..] == [4, 5, 6];
  }

  lemma SevenSecondPass()
    ensures Level([[0, 1, 2], [4, 5, 6]]) == ([Some(1), Some(5)], [[0], [2], [4, 5, 6], []])
  {
    var a: seq<nat> := [0, 1, 2];
    var b: seq<nat> := [4, 5, 6];
    var z: seq<nat> := [0];
    var t: seq<nat> := [2];
    var none: seq<nat> := [];
    SliceInRange(a, 1);
    SliceInRange(a, 2);
    assert a[..1] == z && a[2..] == t;
    LevelSingle(a);
    assert Level([a]) == ([Some(1)], [z, t]);
    assert JsSlice(b, 0, Some(5)) == b;
    assert JsSlice(b, 6, None) == none;
    assert Halves(b, Some(5)) == (b, none);
    LevelSnoc([a], b);
    assert [a] + [b] == [a, b];
    var ms: seq<Option<nat>> := [Some(1), Some(5)];
    assert [Some(1)] + [Some(5)] == ms;
    assert [z, t] + [b, none] == [z, t, b, none];
  }

  lemma SevenThirdPass()
    ensures Level([[0], [2], [4, 5, 6], []]).0 == [Some(0), Some(2), Some(5), None]
  {
    var z: seq<nat> := [0];
    var t: seq<nat> := [2];
    var b: seq<nat> := [4, 5, 6];
    var none: seq<nat> := [];
    LevelSingle(z);
    LevelSnoc([z], t);
    assert [z] + [t] == [z, t];
    LevelSnoc([z, t], b);
    assert [z, t] + [b] == [z, t, b];
    LevelSnoc([z, t, b], none);
    assert [z, t, b] + [none] == [z, t, b, none];
  }

  /**
   * For a column of seven matches the second bisection finds the quarter
   * points, but the third slices the upper half by value: it returns 5 a
   * second time and one undefined middle, not 0, 2, 4, 6.
   */
  lemma SevenMatchColumn()
    ensures Middles([0, 1, 2, 3, 4, 5, 6], 2) == Some([Some(1), Some(5)])
    ensures Middles([0, 1, 2, 3, 4, 5, 6], 3) == Some([Some(0), Some(2), Some(5), None])
  {
    SevenFirstPass();
    SevenSecondPass();
    SevenThirdPass();
  }

  // ---------------------------------------------------------------- matches of the legacy rounds

  /** Where a match names its player: `match.winners`, `match.bye` or, in the entry round, `match.players`. */
  datatype Side = Winners(winners: seq<int>) | ByeOf(bye: seq<int>) | Players(players: seq<int>)

  /**
   * A match object of the legacy rounds: the fields the column scan gives it,
   * and `round_name`, `losers` (a one-element list whose element may be
   * undefined) and `loser_names`, which `constructMatchUps` adds.
   */
  datatype LMatch = LMatch(side: Side, result: Option<string>, roundName: Option<string>, losers: Option<Option<int>>, loserNames: seq<string>)

  function FromColumn(m: CS.ColumnMatch): LMatch {
    match m
    case Pending(w) => LMatch(Winners(w), None, None, None, [])
    case Scored(w, r) => LMatch(Winners(w), Some(r), None, None, [])
    case Bye(w) => LMatch(ByeOf(w), None, None, None, [])
  }

  function FromColumns(ms: seq<CS.ColumnMatch>): (r: seq<LMatch>)
    ensures |r| == |ms| && forall i :: 0 <= i < |ms| ==> r[i] == FromColumn(ms[i])
  {
    if ms == [] then [] else [FromColumn(ms[0])] + FromColumns(ms[1..])
  }

  /** A round as `getColumnMatchUps` leaves it: its occurrences and its matches. */
  datatype LRound = LRound(occurrences: seq<CS.Occurrence>, matches: seq<LMatch>)

  /** `match.result` is truthy. */
  predicate HasResult(m: LMatch) {
    m.result.Some? && m.result.value != ""
  }

  function IsEmbedded(o: CS.Occurrence): bool { |o.indices| > 1 }

  /** How many draw positions closed more than one match of the column. */
  function EmbeddedCount(round: LRound): nat {
    |Filter(round.occurrences, IsEmbedded)|
  }

  // ---------------------------------------------------------------- findEmbeddedRounds

  /** `util.numArr(n)`: the indices 0..n-1. */
  function Indices(n: nat): (r: seq<nat>)
    ensures |r| == n && forall i :: 0 <= i < n ==> r[i] == i
  {
    seq(n, i => i)
  }

  /** `match_indices.forEach(i => round.matches[i].result = undefined)`, one index after the other. */
  function ClearResults(ms: seq<LMatch>, idxs: seq<nat>): (r: seq<LMatch>)
    requires forall i :: 0 <= i < |idxs| ==> idxs[i] < |ms|
    ensures |r| == |ms|
    ensures forall k :: 0 <= k < |ms| ==> r[k] == if k in idxs then ms[k].(result := None) else ms[k]
  {
    if idxs == [] then ms
    else
      var c := ClearResults(ms, idxs[..|idxs| - 1]);
      var last := idxs[|idxs| - 1];
      assert forall k :: k in idxs <==> k in idxs[..|idxs| - 1] || k == last by {
        assert idxs == idxs[..|idxs| - 1] + [last];
      }
      c[last := c[last].(result := None)]
  }

  /** Every middle is defined and names a match of the column. */
  predicate Addressable(mids: seq<Option<nat>>, n: nat) {
    forall i :: 0 <= i < |mids| ==> mids[i].Some? && mids[i].value < n
  }

  function Defined(mids: seq<Option<nat>>, n: nat): (r: seq<nat>)
    requires Addressable(mids, n)
    ensures |r| == |mids| && forall i :: 0 <= i < |r| ==> Some(r[i]) == mids[i] && r[i] < n
  {
    if mids == [] then [] else [mids[0].value] + Defined(mids[1..], n)
  }

  /** `embedded_indices.map(i => Object.assign({}, round.matches[i]))` */
  function Copies(ms: seq<LMatch>, idxs: seq<nat>): (r: seq<LMatch>)
    requires forall i :: 0 <= i < |idxs| ==> idxs[i] < |ms|
    ensures |r| == |idxs| && forall i :: 0 <= i < |idxs| ==> r[i] == ms[idxs[i]]
  {
    if idxs == [] then [] else [ms[idxs[0]]] + Copies(ms, idxs[1..])
  }

  /** The state of one round's `for` loop: the embedded rounds found so far and the round's matches. */
  datatype EmbedState = EmbedState(found: seq<seq<LMatch>>, matches: seq<LMatch>)

  /**
   * One turn of the `for` loop, at bisection depth i of a column of n matches:
   * the matches at the middles are copied out as an embedded round, then their
   * results are cleared; an undefined middle makes the clearing throw.
   */
  function EmbedLevel(st: EmbedState, n: nat, i: nat): Result<EmbedState>
    requires |st.matches| == n
  {
    match Middles(Indices(n), i)
    case None => Err("TypeError: middles undefined")
    case Some(mids) =>
      if mids == [] then Ok(st)
      else if !Addressable(mids, n) then Err("TypeError: cannot clear the result of an undefined match")
      else
        var idxs := Defined(mids, n);
        Ok(EmbedState(st.found + [Copies(st.matches, idxs)], ClearResults(st.matches, idxs)))
  }

  /** The state after the turns i = top, top-1, ..., down+1. */
  function EmbedLevels(ms: seq<LMatch>, top: nat, down: nat): (r: Result<EmbedState>)
    requires down <= top
    ensures r.Ok? ==> |r.value.matches| == |ms|
    decreases top - down
  {
    if down == top then Ok(EmbedState([], ms))
    else
      match EmbedLevels(ms, top, down + 1)
      case Err(e) => Err(e)
      case Ok(st) => EmbedLevel(st, |ms|, down + 1)
  }

  /** What `findEmbeddedRounds` does to one round: the rounds it embeds, and the round afterwards. */
  function EmbedRound(round: LRound): Result<(seq<seq<LMatch>>, LRound)> {
    var embedded := EmbeddedCount(round);
    if embedded == 0 then Ok(([], round))
    else
      match EmbedLevels(round.matches, embedded, 0)
      case Err(e) => Err(e)
      case Ok(st) => Ok((st.found, round.(matches := Filter(st.matches, HasResult))))
  }

  /** `findEmbeddedRounds` over the first k rounds: the embedded rounds in order and the rounds updated. */
  function EmbedRounds(rounds: seq<LRound>): (r: Result<(seq<seq<LMatch>>, seq<LRound>)>)
    ensures r.Ok? ==> |r.value.1| == |rounds|
  {
    if rounds == [] then Ok(([], []))
    else
      match EmbedRounds(rounds[..|rounds| - 1])
      case Err(e) => Err(e)
      case Ok(acc) =>
        match EmbedRound(rounds[|rounds| - 1])
        case Err(e) => Err(e)
        case Ok(one) => Ok((acc.0 + one.0, acc.1 + [one.1]))
  }

  /** A round that throws stops the whole pass with its error. */
  lemma {:induction false} EmbedRoundsErr(rounds: seq<LRound>, k: nat)
    requires 0 < k <= |rounds| && EmbedRounds(rounds[..k]).Err?
    ensures EmbedRounds(rounds) == EmbedRounds(rounds[..k])
    decreases |rounds| - k
  {
    if k < |rounds| {
      var pre := rounds[..k + 1];
      assert pre[..|pre| - 1] == rounds[..k];
      EmbedRoundsErr(rounds, k + 1);
    } else {
      assert rounds[..k] == rounds;
    }
  }

  /** The clearing `forEach` of one turn. */
  method ClearAt(ms: seq<LMatch>, idxs: seq<nat>) returns (r: seq<LMatch>)
    requires forall i :: 0 <= i < |idxs| ==> idxs[i] < |ms|
    ensures r == ClearResults(ms, idxs)
  {
    r := ms;
    for j := 0 to |idxs|
      invariant r == ClearResults(ms, idxs[..j])
    {
      assert idxs[..j + 1][..j] == idxs[..j];
      r := r[idxs[j] := r[idxs[j]].(result := None)];
    }
    assert idxs[..|idxs|] == idxs;
  }

  /** One turn of the `for` loop. */
  method EmbedTurn(st: EmbedState, n: nat, i: nat) returns (r: Result<EmbedState>)
    requires |st.matches| == n
    ensures r == EmbedLevel(st, n, i)
  {
    var mids := FindMiddles(Indices(n), i);
    if mids.None? {
      return Err("TypeError: middles undefined");
    }
    if mids.value == [] {
      return Ok(st);
    }
    if !Addressable(mids.value, n) {
      return Err("TypeError: cannot clear the result of an undefined match");
    }
    var idxs := Defined(mids.value, n);
    var cleared := ClearAt(st.matches, idxs);
    r := Ok(EmbedState(st.found + [Copies(st.matches, idxs)], cleared));
  }

  lemma EmbedLevelsStep(ms: seq<LMatch>, top: nat, i: nat, st: EmbedState)
    requires 0 < i <= top && EmbedLevels(ms, top, i) == Ok(st)
    ensures |st.matches| == |ms| && EmbedLevels(ms, top, i - 1) == EmbedLevel(st, |ms|, i)
  {
  }

  /** A turn that throws ends the loop with its error. */
  lemma {:induction false} EmbedLevelsErr(ms: seq<LMatch>, top: nat, down: nat, k: nat)
    requires down <= k <= top && EmbedLevels(ms, top, k).Err?
    ensures EmbedLevels(ms, top, down) == EmbedLevels(ms, top, k)
    decreases k - down
  {
    if down < k {
      EmbedLevelsErr(ms, top, down + 1, k);
    }
  }

  /** The `for (let i = embedded; i > 0; i--)` loop of one round. */
  method EmbedRoundLoop(round: LRound) returns (r: Result<(seq<seq<LMatch>>, LRound)>)
    ensures r == EmbedRound(round)
  {
    var embedded := EmbeddedCount(round);
    if embedded == 0 {
      return Ok(([], round));
    }
    var st := EmbedState([], round.matches);
    var i: nat := embedded;
    while i > 0
      invariant i <= embedded
      invariant EmbedLevels(round.matches, embedded, i) == Ok(st)
    {
      EmbedLevelsStep(round.matches, embedded, i, st);
      var next := EmbedTurn(st, |round.matches|, i);
      if next.Err? {
        EmbedLevelsErr(round.matches, embedded, 0, i - 1);
        return Err(next.reason);
      }
      st := next.value;
      i := i - 1;
    }
    r := Ok((st.found, round.(matches := Filter(st.matches, HasResult))));
  }

  /**
   * `findEmbeddedRounds(rounds)`: returns the embedded rounds, and the rounds
   * with their embedded matches filtered out (the script does that in place).
   */
  method FindEmbeddedRounds(rounds: seq<LRound>) returns (r: Result<(seq<seq<LMatch>>, seq<LRound>)>)
    ensures r == EmbedRounds(rounds)
  {
    var embeddedRounds: seq<seq<LMatch>> := [];
    var updated: seq<LRound> := [];
    for k := 0 to |rounds|
      invariant EmbedRounds(rounds[..k]) == Ok((embeddedRounds, updated))
    {
      assert rounds[..k + 1][..k] == rounds[..k];
      var one := EmbedRoundLoop(rounds[k]);
      if one.Err? {
        EmbedRoundsErr(rounds, k + 1);
        return Err(one.reason);
      }
      embeddedRounds := embeddedRounds + one.value.0;
      updated := updated + [one.value.1];
    }
    assert rounds[..|rounds|] == rounds;
    r := Ok((embeddedRounds, updated));
  }

  /** A round where no draw position closed two matches is left as it is and embeds nothing. */
  lemma EmbedRoundPlain(round: LRound)
    requires forall i :: 0 <= i < |round.occurrences| ==> |round.occurrences[i].indices| <= 1
    ensures EmbedRound(round) == Ok(([], round))
  {
    FilterEmptyIffNone(round.occurrences, IsEmbedded);
  }

  /** After the embedding every match left in a bisected round carries a result. */
  lemma EmbedRoundKeepsResults(round: LRound)
    requires EmbedRound(round).Ok? && EmbeddedCount(round) > 0
    ensures forall i :: 0 <= i < |EmbedRound(round).value.1.matches| ==> HasResult(EmbedRound(round).value.1.matches[i])
    ensures EmbedRound(round).value.1.occurrences == round.occurrences
  {
  }

  /**
   * The number-th turn embeds 2^(number-1) matches for a column with an odd
   * number of matches, each a copy of the match at a middle index.
   */
  lemma EmbedLevelCopies(st: EmbedState, n: nat, i: nat)
    requires |st.matches| == n && n % 2 == 1 && i >= 1
    requires EmbedLevel(st, n, i).Ok?
    ensures var r := EmbedLevel(st, n, i).value;
      |r.found| == |st.found| + 1 && r.found[..|st.found|] == st.found &&
      |r.found[|st.found|]| == Pow2(i - 1) &&
      forall k :: 0 <= k < |r.found[|st.found|]| ==>
        Some(r.found[|st.found|][k]) == (var m := Middles(Indices(n), i).value[k]; if m.Some? && m.value < n then Some(st.matches[m.value]) else None)
  {
    MiddlesCount(Indices(n), i);
    var mids := Middles(Indices(n), i).value;
    assert |mids| > 0 by { assert Pow2(i - 1) >= 1 by { Pow2Positive(i - 1); } }
  }

  lemma {:induction false} Pow2Positive(k: nat)
    ensures Pow2(k) >= 1
  {
    if k > 0 { Pow2Positive(k - 1); }
  }

  // ---------------------------------------------------------------- add1stRound

  /** The winners of one round: those of every match that has a `winners` list. */
  function WinnersOf(ms: seq<LMatch>): (r: seq<int>)
    ensures forall d :: d in r <==> exists k :: 0 <= k < |ms| && ms[k].side.Winners? && d in ms[k].side.winners
  {
    if ms == [] then []
    else
      var r := (if ms[0].side.Winners? then ms[0].side.winners else []) + WinnersOf(ms[1..]);
      assert forall d :: (exists k :: 0 <= k < |ms| && ms[k].side.Winners? && d in ms[k].side.winners) ==>
        (ms[0].side.Winners? && d in ms[0].side.winners) || exists k :: 0 <= k < |ms[1..]| && ms[1..][k].side.Winners? && d in ms[1..][k].side.winners
      by {
        forall d | exists k :: 0 <= k < |ms| && ms[k].side.Winners? && d in ms[k].side.winners
          ensures (ms[0].side.Winners? && d in ms[0].side.winners) || exists k :: 0 <= k < |ms[1..]| && ms[1..][k].side.Winners? && d in ms[1..][k].side.winners
        {
          var k :| 0 <= k < |ms| && ms[k].side.Winners? && d in ms[k].side.winners;
          if k > 0 { assert ms[1..][k - 1] == ms[k]; }
        }
      }
      r
  }

  /** The winners of every round. */
  function AllWinners(rounds: seq<seq<LMatch>>): (r: seq<int>)
    ensures forall d :: d in r <==> exists i :: 0 <= i < |rounds| && d in WinnersOf(rounds[i])
  {
    if rounds == [] then []
    else
      var r := WinnersOf(rounds[0]) + AllWinners(rounds[1..]);
      assert forall d :: (exists i :: 0 <= i < |rounds| && d in WinnersOf(rounds[i])) ==>
        d in WinnersOf(rounds[0]) || exists i :: 0 <= i < |rounds[1..]| && d in WinnersOf(rounds[1..][i])
      by {
        forall d | exists i :: 0 <= i < |rounds| && d in WinnersOf(rounds[i])
          ensures d in WinnersOf(rounds[0]) || exists i :: 0 <= i < |rounds[1..]| && d in WinnersOf(rounds[1..][i])
        {
          var i :| 0 <= i < |rounds| && d in WinnersOf(rounds[i]);
          if i > 0 { assert rounds[1..][i - 1] == rounds[i]; }
        }
      }
      r
  }

  function DrawPositions(ps: seq<LegacyPlayer>): (r: seq<int>)
    ensures |r| == |ps| && forall i :: 0 <= i < |ps| ==> r[i] == ps[i].drawPosition
  {
    if ps == [] then [] else [ps[0].drawPosition] + DrawPositions(ps[1..])
  }

  /** The entry round's matches, `{players: [dp]}` each. */
  function EntryMatches(dps: seq<int>): (r: seq<LMatch>)
    ensures |r| == |dps| && forall i :: 0 <= i < |dps| ==> r[i] == LMatch(Players([dps[i]]), None, None, None, [])
  {
    if dps == [] then [] else [LMatch(Players([dps[0]]), None, None, None, [])] + EntryMatches(dps[1..])
  }

  /** `notWinner(dp) && notBye(dp)`; an empty bye list and a missing one exclude nothing alike. */
  predicate IsEntrant(winners: seq<int>, byes: Option<seq<int>>, p: LegacyPlayer) {
    p.drawPosition !in winners && (byes.None? || p.drawPosition !in byes.value)
  }

  /** The draw positions of the entry round: distinct, of no winner and of no bye. */
  function EntryPositions(rounds: seq<seq<LMatch>>, players: seq<LegacyPlayer>, byes: Option<seq<int>>): seq<int> {
    var winners := AllWinners(rounds);
    Unique(DrawPositions(Filter(players, p => IsEntrant(winners, byes, p))))
  }

  /**
   * `add1stRound(rounds, players)`: the first-round entrants, being the players
   * that won no match and have no bye, appended as a last round; `byes` is
   * `draw_byes[players.length]`.
   */
  function AddFirstRound(rounds: seq<seq<LMatch>>, players: seq<LegacyPlayer>, byes: Option<seq<int>>): (r: seq<seq<LMatch>>)
    ensures |r| == |rounds| + 1 && r[..|rounds|] == rounds
  {
    rounds + [EntryMatches(EntryPositions(rounds, players, byes))]
  }

  /** A draw position that some player holds, that won no match in any round and that is not in the bye list. */
  predicate EntersFirstRound(rounds: seq<seq<LMatch>>, players: seq<LegacyPlayer>, byes: Option<seq<int>>, d: int) {
    && (exists i :: 0 <= i < |players| && players[i].drawPosition == d)
    && (forall j, k :: 0 <= j < |rounds| && 0 <= k < |rounds[j]| && rounds[j][k].side.Winners? ==> d !in rounds[j][k].side.winners)
    && (byes.None? || d !in byes.value)
  }

  /** A position won no match exactly when it is missing from `AllWinners`. */
  lemma NotWinnerIff(rounds: seq<seq<LMatch>>, d: int)
    ensures d !in AllWinners(rounds) <==>
      forall j, k :: 0 <= j < |rounds| && 0 <= k < |rounds[j]| && rounds[j][k].side.Winners? ==> d !in rounds[j][k].side.winners
  {
    if d in AllWinners(rounds) {
      var j :| 0 <= j < |rounds| && d in WinnersOf(rounds[j]);
      var k :| 0 <= k < |rounds[j]| && rounds[j][k].side.Winners? && d in rounds[j][k].side.winners;
    }
  }

  lemma EntrantHasPosition(players: seq<LegacyPlayer>, keep: LegacyPlayer -> bool, d: int)
    requires d in DrawPositions(Filter(players, keep))
    ensures exists p :: p in players && keep(p) && p.drawPosition == d
  {
    var kept := Filter(players, keep);
    var i :| 0 <= i < |kept| && DrawPositions(kept)[i] == d;
    FilterMembers(players, keep, kept[i]);
  }

  lemma PositionOfEntrant(players: seq<LegacyPlayer>, keep: LegacyPlayer -> bool, p: LegacyPlayer)
    requires p in players && keep(p)
    ensures p.drawPosition in DrawPositions(Filter(players, keep))
  {
    var kept := Filter(players, keep);
    FilterMembers(players, keep, p);
    var q :| 0 <= q < |kept| && kept[q] == p;
    assert DrawPositions(kept)[q] == p.drawPosition;
  }

  /** A position is kept by the entrant filter exactly when some entrant holds it. */
  lemma KeptPositions(players: seq<LegacyPlayer>, winners: seq<int>, byes: Option<seq<int>>, keep: LegacyPlayer -> bool, d: int)
    requires forall p :: keep(p) == IsEntrant(winners, byes, p)
    ensures d in DrawPositions(Filter(players, keep)) <==>
      (exists i :: 0 <= i < |players| && players[i].drawPosition == d) && d !in winners && (byes.None? || d !in byes.value)
  {
    if d in DrawPositions(Filter(players, keep)) {
      EntrantHasPosition(players, keep, d);
      var p :| p in players && keep(p) && p.drawPosition == d;
      var i :| 0 <= i < |players| && players[i] == p;
    }
    if exists i :: 0 <= i < |players| && players[i].drawPosition == d {
      var i :| 0 <= i < |players| && players[i].drawPosition == d;
      if keep(players[i]) {
        PositionOfEntrant(players, keep, players[i]);
      }
    }
  }

  /** The entry positions are those of the players that enter the first round. */
  lemma EntryPositionsMembers(rounds: seq<seq<LMatch>>, players: seq<LegacyPlayer>, byes: Option<seq<int>>, d: int)
    ensures d in EntryPositions(rounds, players, byes) <==> EntersFirstRound(rounds, players, byes, d)
  {
    var winners := AllWinners(rounds);
    var keep := (p: LegacyPlayer) => IsEntrant(winners, byes, p);
    var all := DrawPositions(Filter(players, keep));
    assert EntryPositions(rounds, players, byes) == Unique(all);
    assert d in Unique(all) <==> d in all;
    NotWinnerIff(rounds, d);
    KeptPositions(players, winners, byes, keep, d);
  }

  /**
   * The appended round holds one `{players: [dp]}` per draw position, no two
   * alike, and a draw position is there exactly when a player holds it who
   * won no match in any round and is not in the bye list.
   */
  lemma AddFirstRoundEntrants(rounds: seq<seq<LMatch>>, players: seq<LegacyPlayer>, byes: Option<seq<int>>)
    ensures var entry := AddFirstRound(rounds, players, byes)[|rounds|];
      var dps := EntryPositions(rounds, players, byes);
      && |entry| == |dps| && NoDup(dps)
      && (forall k :: 0 <= k < |entry| ==> entry[k] == LMatch(Players([dps[k]]), None, None, None, []))
      && (forall d :: d in dps <==> EntersFirstRound(rounds, players, byes, d))
  {
    forall d ensures d in EntryPositions(rounds, players, byes) <==> EntersFirstRound(rounds, players, byes, d) {
      EntryPositionsMembers(rounds, players, byes, d);
    }
  }

  /** After `addByes` has emptied the bye list, the bye list excludes nobody. */
  lemma AddFirstRoundEmptyByes(rounds: seq<seq<LMatch>>, players: seq<LegacyPlayer>)
    ensures AddFirstRound(rounds, players, Some([])) == AddFirstRound(rounds, players, None)
  {
    var winners := AllWinners(rounds);
    FilterSame(players, p => IsEntrant(winners, Some([]), p), p => IsEntrant(winners, None, p));
  }

  // ---------------------------------------------------------------- constructMatchUps

  /** `mainDrawRoundNames`, from the final outwards. */
  const MainDrawRoundNames: seq<string> := ["F", "SF", "QF", "R16", "R32", "R64", "R128", "R256"]

  /** `match.winners ? match.winners[0] : match.bye ? match.bye[0] : match.players[0]` */
  function PlayerOf(m: LMatch): Option<int> {
    var l := match m.side
      case Winners(w) => w
      case ByeOf(b) => b
      case Players(p) => p;
    if l == [] then None else Some(l[0])
  }

  function PlayersOf(ms: seq<LMatch>): (r: seq<Option<int>>)
    ensures |r| == |ms| && forall i :: 0 <= i < |ms| ==> r[i] == PlayerOf(ms[i])
  {
    if ms == [] then [] else [PlayerOf(ms[0])] + PlayersOf(ms[1..])
  }

  function NotBye(m: LMatch): bool { !m.side.ByeOf? }

  function FullNames(ps: seq<LegacyPlayer>): (r: seq<string>)
    ensures |r| == |ps| && forall i :: 0 <= i < |ps| ==> r[i] == ps[i].fullName
  {
    if ps == [] then [] else [ps[0].fullName] + FullNames(ps[1..])
  }

  /** `players.filter(f => +f.drawPosition === +loser).map(p => p.full_name)`: an undefined loser is NaN and matches nobody. */
  function LoserNames(players: seq<LegacyPlayer>, loser: Option<int>): seq<string> {
    if loser.None? then [] else FullNames(Filter(players, (p: LegacyPlayer) => p.drawPosition == loser.value))
  }

  /** `draw_type === 'main'`: a single final, or two finals feeding four semifinals; `rounds[1]` must then exist. */
  function DrawTypeMain(rounds: seq<seq<LMatch>>): Result<bool> {
    if rounds == [] then Err("TypeError: rounds[0] is undefined")
    else if |rounds[0]| == 1 then Ok(true)
    else if |rounds[0]| != 2 then Ok(false)
    else if |rounds| < 2 then Err("TypeError: rounds[1] is undefined")
    else Ok(|rounds[1]| == 4)
  }

  /**
   * The name of the round at `index` (0 the final) of `count` rounds: the main
   * draw names rounds by `mainDrawRoundNames` (undefined past the eighth), except
   * the first-round column of a deep draw, which is "R" and the number of draw positions;
   * a qualification draw numbers them "Q", "Q1", "Q2", ...
   */
  function RoundName(main: bool, index: nat, count: nat, positions: nat): Option<string> {
    if !main then Some("Q" + (if index == 0 then "" else NatToString(index)))
    else if index + 2 < count || index < 3 then (if index < |MainDrawRoundNames| then Some(MainDrawRoundNames[index]) else None)
    else Some("R" + NatToString(positions))
  }

  /** The annotation of the k-th annotated match of a round. */
  function Annotate(m: LMatch, name: Option<string>, eliminated: seq<Option<int>>, k: nat, players: seq<LegacyPlayer>): LMatch {
    var loser := if k < |eliminated| then eliminated[k] else None;
    m.(roundName := name, losers := Some(loser), loserNames := LoserNames(players, loser))
  }

  /** A match takes part in the annotation: every match, or only those without a bye when `skipByes`. */
  predicate TakesPart(m: LMatch, skipByes: bool) {
    !skipByes || NotBye(m)
  }

  /** The number of matches before j that take part. */
  function AnnotatedBefore(ms: seq<LMatch>, skipByes: bool, j: nat): nat
    requires j <= |ms|
  {
    if j == 0 then 0 else AnnotatedBefore(ms, skipByes, j - 1) + (if TakesPart(ms[j - 1], skipByes) then 1 else 0)
  }

  lemma {:induction false} AnnotatedBeforeTail(ms: seq<LMatch>, skipByes: bool, j: nat)
    requires 0 < j <= |ms|
    ensures AnnotatedBefore(ms, skipByes, j) == (if TakesPart(ms[0], skipByes) then 1 else 0) + AnnotatedBefore(ms[1..], skipByes, j - 1)
  {
    if j > 1 {
      AnnotatedBeforeTail(ms, skipByes, j - 1);
      assert ms[1..][j - 2] == ms[j - 1];
    }
  }

  /** Without `skipByes` every match before j counts. */
  lemma {:induction false} AnnotatedBeforeAll(ms: seq<LMatch>, j: nat)
    requires j <= |ms|
    ensures AnnotatedBefore(ms, false, j) == j
  {
    if j > 0 {
      AnnotatedBeforeAll(ms, j - 1);
    }
  }

  /**
   * The `round_matches.forEach`: the matches that take part are annotated in
   * order, counting from k; the others are left alone.
   */
  function AnnotateRound(ms: seq<LMatch>, skipByes: bool, name: Option<string>, eliminated: seq<Option<int>>, k: nat, players: seq<LegacyPlayer>): (r: seq<LMatch>)
    ensures |r| == |ms|
  {
    if ms == [] then []
    else
      var first := if TakesPart(ms[0], skipByes) then Annotate(ms[0], name, eliminated, k, players) else ms[0];
      var k' := if TakesPart(ms[0], skipByes) then k + 1 else k;
      [first] + AnnotateRound(ms[1..], skipByes, name, eliminated, k', players)
  }

  /** Past the first match, match j of the round is match j - 1 of the rest, counted from the next k. */
  lemma AnnotateRoundTail(ms: seq<LMatch>, skipByes: bool, name: Option<string>, eliminated: seq<Option<int>>, k: nat, players: seq<LegacyPlayer>, j: nat)
    requires 0 < j < |ms|
    ensures AnnotateRound(ms, skipByes, name, eliminated, k, players)[j] ==
      AnnotateRound(ms[1..], skipByes, name, eliminated, if TakesPart(ms[0], skipByes) then k + 1 else k, players)[j - 1]
  {
  }

  /** Match j is annotated as the n-th, n counting the matches before it that take part, when it takes part itself, and is otherwise left alone. */
  lemma {:induction false} AnnotateRoundAt(ms: seq<LMatch>, skipByes: bool, name: Option<string>, eliminated: seq<Option<int>>, k: nat, players: seq<LegacyPlayer>, j: nat)
    requires j < |ms|
    ensures AnnotateRound(ms, skipByes, name, eliminated, k, players)[j] ==
      if TakesPart(ms[j], skipByes) then Annotate(ms[j], name, eliminated, k + AnnotatedBefore(ms, skipByes, j), players)
      else ms[j]
  {
    if j > 0 {
      var k' := if TakesPart(ms[0], skipByes) then k + 1 else k;
      AnnotateRoundAt(ms[1..], skipByes, name, eliminated, k', players, j - 1);
      AnnotateRoundAtStep(ms, skipByes, name, eliminated, k, players, j);
    } else {
      assert AnnotatedBefore(ms, skipByes, 0) == 0;
    }
  }

  /** The step of the induction: match j of the round, once match j - 1 of the rest is known. */
  lemma AnnotateRoundAtStep(ms: seq<LMatch>, skipByes: bool, name: Option<string>, eliminated: seq<Option<int>>, k: nat, players: seq<LegacyPlayer>, j: nat)
    requires 0 < j < |ms|
    requires var k' := if TakesPart(ms[0], skipByes) then k + 1 else k;
      AnnotateRound(ms[1..], skipByes, name, eliminated, k', players)[j - 1] ==
        if TakesPart(ms[1..][j - 1], skipByes) then Annotate(ms[1..][j - 1], name, eliminated, k' + AnnotatedBefore(ms[1..], skipByes, j - 1), players)
        else ms[1..][j - 1]
    ensures AnnotateRound(ms, skipByes, name, eliminated, k, players)[j] ==
      if TakesPart(ms[j], skipByes) then Annotate(ms[j], name, eliminated, k + AnnotatedBefore(ms, skipByes, j), players)
      else ms[j]
  {
    var k' := if TakesPart(ms[0], skipByes) then k + 1 else k;
    assert ms[1..][j - 1] == ms[j];
    AnnotateRoundTail(ms, skipByes, name, eliminated, k, players, j);
    AnnotatedBeforeTail(ms, skipByes, j);
  }

  /** The annotation touches neither a match's players nor its result. */
  lemma {:induction false} AnnotateRoundKeeps(ms: seq<LMatch>, skipByes: bool, name: Option<string>, eliminated: seq<Option<int>>, k: nat, players: seq<LegacyPlayer>)
    ensures var r := AnnotateRound(ms, skipByes, name, eliminated, k, players);
      forall j :: 0 <= j < |ms| ==> r[j].side == ms[j].side && r[j].result == ms[j].result
  {
    if ms != [] {
      var k' := if TakesPart(ms[0], skipByes) then k + 1 else k;
      AnnotateRoundKeeps(ms[1..], skipByes, name, eliminated, k', players);
    }
  }

  /** The draw positions of the round at index + 1 that are not among the winners of the round at index. */
  function Eliminated(local: seq<LMatch>, next: seq<LMatch>): seq<Option<int>> {
    var winners := PlayersOf(local);
    Filter(PlayersOf(next), p => p !in winners)
  }

  /** The round at `index` after `constructMatchUps`. */
  function AnnotatedRound(rounds: seq<seq<LMatch>>, index: nat, main: bool, players: seq<LegacyPlayer>): seq<LMatch>
    requires index < |rounds|
  {
    if index + 1 >= |rounds| then rounds[index]
    else
      var skipByes := index + 2 == |rounds|;
      var local := if skipByes then Filter(rounds[index], NotBye) else rounds[index];
      var name := RoundName(main, index, |rounds|, |Unique(DrawPositions(players))|);
      AnnotateRound(rounds[index], skipByes, name, Eliminated(local, rounds[index + 1]), 0, players)
  }

  /**
   * `constructMatchUps(rounds, players)`, rounds ordered from the final: each
   * round but the last (the entry round) names its matches and, match by match,
   * the players of the next round out from the final that did not go through;
   * the round before the entry round does so for its matches without a bye only.
   */
  function ConstructMatchUps(rounds: seq<seq<LMatch>>, players: seq<LegacyPlayer>): Result<seq<seq<LMatch>>> {
    match DrawTypeMain(rounds)
    case Err(e) => Err(e)
    case Ok(main) => Ok(seq(|rounds|, i requires 0 <= i < |rounds| => AnnotatedRound(rounds, i, main, players)))
  }

  lemma ConstructMatchUpsAt(rounds: seq<seq<LMatch>>, players: seq<LegacyPlayer>, i: nat)
    requires ConstructMatchUps(rounds, players).Ok? && i < |rounds|
    ensures |ConstructMatchUps(rounds, players).value| == |rounds|
    ensures ConstructMatchUps(rounds, players).value[i] == AnnotatedRound(rounds, i, DrawTypeMain(rounds).value, players)
  {
  }

  /** The only failures: no rounds at all, or two finals and nothing after them. */
  lemma ConstructMatchUpsFails(rounds: seq<seq<LMatch>>, players: seq<LegacyPlayer>)
    ensures ConstructMatchUps(rounds, players).Err? <==> rounds == [] || (|rounds[0]| == 2 && |rounds| == 1)
  {
  }

  /**
   * The annotation changes no match's players or result, keeps every round's
   * length, and leaves the entry round and the byes of the round before it as they were.
   */
  lemma ConstructMatchUpsKeeps(rounds: seq<seq<LMatch>>, players: seq<LegacyPlayer>)
    requires ConstructMatchUps(rounds, players).Ok?
    ensures var r := ConstructMatchUps(rounds, players).value;
      && |r| == |rounds|
      && (forall i :: 0 <= i < |rounds| ==> |r[i]| == |rounds[i]|)
      && (forall i, k :: 0 <= i < |rounds| && 0 <= k < |rounds[i]| ==> r[i][k].side == rounds[i][k].side && r[i][k].result == rounds[i][k].result)
      && r[|rounds| - 1] == rounds[|rounds| - 1]
  {
    var r: seq<seq<LMatch>> := ConstructMatchUps(rounds, players).value;
    ConstructMatchUpsAt(rounds, players, |rounds| - 1);
    forall i: nat | 0 <= i < |rounds| ensures |r[i]| == |rounds[i]| {
      ConstructMatchUpsAt(rounds, players, i);
    }
    forall i: nat | 0 <= i < |rounds| && i + 1 < |rounds|
      ensures forall k :: 0 <= k < |rounds[i]| ==> r[i][k].side == rounds[i][k].side && r[i][k].result == rounds[i][k].result
    {
      ConstructMatchUpsAt(rounds, players, i);
      var main := DrawTypeMain(rounds).value;
      var skipByes := i + 2 == |rounds|;
      var local := if skipByes then Filter(rounds[i], NotBye) else rounds[i];
      var name := RoundName(main, i, |rounds|, |Unique(DrawPositions(players))|);
      AnnotateRoundKeeps(rounds[i], skipByes, name, Eliminated(local, rounds[i + 1]), 0, players);
    }
  }

  /** The round before the entry round leaves its byes as they were. */
  lemma ConstructMatchUpsKeepsByes(rounds: seq<seq<LMatch>>, players: seq<LegacyPlayer>, i: nat, k: nat)
    requires ConstructMatchUps(rounds, players).Ok?
    requires i + 2 == |rounds| && k < |rounds[i]| && rounds[i][k].side.ByeOf?
    ensures ConstructMatchUps(rounds, players).value[i][k] == rounds[i][k]
  {
    var main := DrawTypeMain(rounds).value;
    var name := RoundName(main, i, |rounds|, |Unique(DrawPositions(players))|);
    ConstructMatchUpsAt(rounds, players, i);
    AnnotateRoundAt(rounds[i], true, name, Eliminated(Filter(rounds[i], NotBye), rounds[i + 1]), 0, players, k);
  }

  /** The loser names are the full names of exactly the players holding the loser's draw position. */
  lemma LoserNamesMembers(players: seq<LegacyPlayer>, d: int, x: string)
    ensures x in LoserNames(players, Some(d)) <==> exists j :: 0 <= j < |players| && players[j].drawPosition == d && players[j].fullName == x
  {
    var holds := (p: LegacyPlayer) => p.drawPosition == d;
    var named := Filter(players, holds);
    if x in LoserNames(players, Some(d)) {
      var q :| 0 <= q < |named| && FullNames(named)[q] == x;
      FilterMembers(players, holds, named[q]);
    }
    if exists j :: 0 <= j < |players| && players[j].drawPosition == d && players[j].fullName == x {
      var j :| 0 <= j < |players| && players[j].drawPosition == d && players[j].fullName == x;
      FilterMembers(players, holds, players[j]);
      var q :| 0 <= q < |named| && named[q] == players[j];
      assert FullNames(named)[q] == x;
    }
  }

  /** The eliminated players of a round are the players of the next round out who are not players of this one. */
  lemma EliminatedMembers(local: seq<LMatch>, next: seq<LMatch>, p: Option<int>)
    ensures p in Eliminated(local, next) <==> p in PlayersOf(next) && p !in PlayersOf(local)
  {
    var winners := PlayersOf(local);
    FilterMembers(PlayersOf(next), q => q !in winners, p);
  }

  /** Away from the entry round and the round before it, the k-th match is annotated as the k-th. */
  lemma ConstructMatchUpsInner(rounds: seq<seq<LMatch>>, players: seq<LegacyPlayer>, i: nat, k: nat)
    requires ConstructMatchUps(rounds, players).Ok?
    requires i + 2 < |rounds| && k < |rounds[i]|
    ensures ConstructMatchUps(rounds, players).value[i][k] ==
      Annotate(rounds[i][k], RoundName(DrawTypeMain(rounds).value, i, |rounds|, |Unique(DrawPositions(players))|), Eliminated(rounds[i], rounds[i + 1]), k, players)
  {
    var name := RoundName(DrawTypeMain(rounds).value, i, |rounds|, |Unique(DrawPositions(players))|);
    var out := Eliminated(rounds[i], rounds[i + 1]);
    assert ConstructMatchUps(rounds, players).value[i] == AnnotateRound(rounds[i], false, name, out, 0, players) by {
      ConstructMatchUpsAt(rounds, players, i);
    }
    AnnotateRoundAt(rounds[i], false, name, out, 0, players, k);
    AnnotatedBeforeAll(rounds[i], k);
  }

  /**
   * Away from the entry round, the k-th match of a round has as its loser the
   * k-th eliminated player (undefined when there are fewer), and as loser names
   * those of the players holding that draw position.
   */
  lemma ConstructMatchUpsLosers(rounds: seq<seq<LMatch>>, players: seq<LegacyPlayer>, i: nat, k: nat)
    requires ConstructMatchUps(rounds, players).Ok?
    requires i + 2 < |rounds| && k < |rounds[i]|
    ensures var m := ConstructMatchUps(rounds, players).value[i][k];
      var out := Eliminated(rounds[i], rounds[i + 1]);
      var loser := if k < |out| then out[k] else None;
      m.losers == Some(loser) && m.loserNames == LoserNames(players, loser)
  {
    ConstructMatchUpsInner(rounds, players, i, k);
  }

  /** In a draw that is not a main draw every annotated match is in round "Q", "Q1", "Q2", ... by its index. */
  lemma ConstructMatchUpsQualifying(rounds: seq<seq<LMatch>>, players: seq<LegacyPlayer>, i: nat, k: nat)
    requires ConstructMatchUps(rounds, players).Ok? && DrawTypeMain(rounds) == Ok(false)
    requires i + 2 < |rounds| && k < |rounds[i]|
    ensures ConstructMatchUps(rounds, players).value[i][k].roundName == Some("Q" + (if i == 0 then "" else NatToString(i)))
  {
    ConstructMatchUpsInner(rounds, players, i, k);
  }

  /** A main draw of four columns and the entry round names its rounds F, SF, QF, then R and the number of draw positions. */
  lemma RoundNamesOfFiveRounds(positions: nat)
    ensures RoundName(true, 0, 5, positions) == Some("F")
    ensures RoundName(true, 1, 5, positions) == Some("SF")
    ensures RoundName(true, 2, 5, positions) == Some("QF")
    ensures RoundName(true, 3, 5, positions) == Some("R" + NatToString(positions))
  {
  }
}
