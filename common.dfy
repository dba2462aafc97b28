/** Values, sequences and strings with the JavaScript meaning the parser relies on. */
module Common {

  datatype Option<T> = None | Some(value: T)

  /** What a computation that may throw yields: `Err` stands for the TypeError the script would raise. */
  datatype Result<T> = Ok(value: T) | Err(reason: string)

  // ---------------------------------------------------------------- sequences

  predicate NoDup<T(==)>(s: seq<T>) {
    forall i, j :: 0 <= i < j < |s| ==> s[i] != s[j]
  }

  /** `s.filter(f => f === x).length` */
  function Count<T(==)>(s: seq<T>, x: T): (n: nat)
    ensures n <= |s|
    ensures n == 0 <==> x !in s
  {
    if s == [] then 0 else (if s[0] == x then 1 else 0) + Count(s[1..], x)
  }

  lemma {:induction false} CountAppend<T>(s: seq<T>, t: seq<T>, x: T)
    ensures Count(s + t, x) == Count(s, x) + Count(t, x)
  {
    if s == [] {
      assert s + t == t;
    } else {
      assert (s + t)[1..] == s[1..] + t;
      CountAppend(s[1..], t, x);
    }
  }

  /** `s.filter((item, i, s) => s.lastIndexOf(item) === i)`: the last occurrence of each element, in order. */
  function Unique<T(==)>(s: seq<T>): (r: seq<T>)
    ensures forall i :: 0 <= i < |r| ==> r[i] in s
    ensures forall i :: 0 <= i < |s| ==> s[i] in r
    ensures NoDup(r)
    ensures |r| <= |s|
  {
    if s == [] then []
    else if s[0] in s[1..] then Unique(s[1..])
    else [s[0]] + Unique(s[1..])
  }

  /** An element of a duplicate-free list occurs in it once. */
  lemma {:induction false} NoDupCount<T>(s: seq<T>, x: T)
    requires NoDup(s)
    ensures multiset(s)[x] <= 1
  {
    if s != [] {
      assert s == [s[0]] + s[1..];
      NoDupCount(s[1..], x);
      if s[0] == x {
        assert x !in s[1..];
      }
    }
  }

  /** Two equal entries at different places make the value occur twice. */
  lemma TwiceCounted<T>(r: seq<T>, i: nat, j: nat)
    requires i < j < |r| && r[i] == r[j]
    ensures multiset(r)[r[i]] >= 2
  {
    assert r == r[..i] + [r[i]] + r[i + 1..j] + [r[j]] + r[j + 1..];
  }

  /** A permutation of a list without duplicates has none either. */
  lemma DistinctPair<T>(u: seq<T>, r: seq<T>, i: nat, j: nat)
    requires NoDup(u) && multiset(r) == multiset(u) && i < j < |r|
    ensures r[i] != r[j]
  {
    if r[i] == r[j] {
      TwiceCounted(r, i, j);
      NoDupCount(u, r[i]);
    }
  }

  /** What Unique keeps comes from the list. */
  lemma UniqueFrom<T>(s: seq<T>, x: T)
    requires x in Unique(s)
    ensures x in s
  {
    var i :| 0 <= i < |Unique(s)| && Unique(s)[i] == x;
  }

  /** Unique keeps every value of the list. */
  lemma UniqueMember<T>(s: seq<T>, x: T)
    requires x in s
    ensures x in Unique(s)
  {
    var i :| 0 <= i < |s| && s[i] == x;
  }

  /** `[].concat(...ss)` */
  function Flatten<T>(ss: seq<seq<T>>): seq<T> {
    if ss == [] then [] else ss[0] + Flatten(ss[1..])
  }

  lemma {:induction false} InFlatten<T>(ss: seq<seq<T>>, x: T)
    ensures x in Flatten(ss) <==> exists i :: 0 <= i < |ss| && x in ss[i]
  {
    if ss != [] {
      InFlatten(ss[1..], x);
      if x in Flatten(ss[1..]) {
        var i :| 0 <= i < |ss[1..]| && x in ss[1..][i];
        assert x in ss[i + 1];
      }
      if exists i :: 0 <= i < |ss| && x in ss[i] {
        var i :| 0 <= i < |ss| && x in ss[i];
        if i > 0 { assert x in ss[1..][i - 1]; }
      }
    }
  }

  lemma {:induction false} FlattenAppend<T>(ss: seq<seq<T>>, t: seq<T>)
    ensures Flatten(ss + [t]) == Flatten(ss) + t
  {
    if ss == [] {
      assert [] + [t] == [t];
    } else {
      assert (ss + [t])[1..] == ss[1..] + [t];
      FlattenAppend(ss[1..], t);
    }
  }

  /** `generateRange(start, end)`: the integers start, start + 1, ..., end - 1. */
  function Range(start: int, end: int): (r: seq<int>)
    ensures |r| == if end > start then end - start else 0
    ensures forall i :: 0 <= i < |r| ==> r[i] == start + i
  {
    if end <= start then [] else seq(end - start, i => start + i)
  }

  lemma InRange(start: int, end: int, x: int)
    ensures x in Range(start, end) <==> start <= x < end
  {
    if start <= x < end {
      assert Range(start, end)[x - start] == x;
    }
  }

  /** `isPowerOf2(n)` for a whole number n: 1, 2, 4, 8, ... */
  predicate IsPowerOf2(n: int)
    decreases if n < 0 then 0 else n
  {
    n == 1 || (n >= 2 && n % 2 == 0 && IsPowerOf2(n / 2))
  }

  function Pow2(k: nat): (p: nat)
    ensures p >= 1
  {
    if k == 0 then 1 else 2 * Pow2(k - 1)
  }

  /** `chunkArray(s, 2)`: consecutive pairs, the last one possibly single. */
  function ChunkPairs<T>(s: seq<T>): (r: seq<seq<T>>)
    ensures Flatten(r) == s
    decreases |s|
  {
    if |s| <= 2 then (if s == [] then [] else [s])
    else [s[..2]] + ChunkPairs(s[2..])
  }

  /** `Math.max(...Object.values(instanceCount(s)))`: how often the most frequent element occurs (0 for []). */
  function MaxOccurrence<T(==)>(s: seq<T>): (m: nat)
    ensures forall x :: x in s ==> Count(s, x) <= m
    ensures s != [] ==> exists x :: x in s && Count(s, x) == m
  {
    MaxCountOver(s, s)
  }

  function MaxCountOver<T(==)>(s: seq<T>, candidates: seq<T>): (m: nat)
    ensures forall x :: x in candidates ==> Count(s, x) <= m
    ensures candidates != [] ==> exists x :: x in candidates && Count(s, x) == m
    ensures candidates == [] ==> m == 0
  {
    if candidates == [] then 0
    else
      var rest := MaxCountOver(s, candidates[1..]);
      var here := Count(s, candidates[0]);
      if here >= rest then here else rest
  }

  /** `s.slice(start, end)` for a non-negative start and an end that may be negative or absent (None). */
  function JsSlice<T>(s: seq<T>, start: nat, end: Option<int>): (r: seq<T>)
    ensures |r| <= |s|
  {
    var e := match end
      case None => |s|
      case Some(k) => if k < 0 then (if |s| + k < 0 then 0 else |s| + k) else (if k > |s| then |s| else k);
    var b := if start > |s| then |s| else start;
    if b >= e then [] else s[b..e]
  }

  // ---------------------------------------------------------------- strings

  /** The white space `String.prototype.trim` removes (the Unicode space separators beyond these are not modelled). */
  predicate IsSpace(c: char) {
    c == ' ' || c == '\t' || c == '\n' || c == '\r' || c == '\U{000B}' || c == '\U{000C}' || c == '\U{00A0}' || c == '\U{FEFF}'
  }

  function TrimStart(s: string): (r: string)
    ensures r == [] || !IsSpace(r[0])
  {
    if s != [] && IsSpace(s[0]) then TrimStart(s[1..]) else s
  }

  function TrimEnd(s: string): (r: string)
    ensures r == [] || !IsSpace(r[|r| - 1])
  {
    if s != [] && IsSpace(s[|s| - 1]) then TrimEnd(s[..|s| - 1]) else s
  }

  /** Trimming the start leaves a suffix. */
  lemma {:induction false} TrimStartSuffix(s: string)
    ensures |TrimStart(s)| <= |s| && TrimStart(s) == s[|s| - |TrimStart(s)|..]
  {
    if s != [] && IsSpace(s[0]) {
      TrimStartSuffix(s[1..]);
    }
  }

  /** Trimming the end leaves a prefix. */
  lemma {:induction false} TrimEndPrefix(s: string)
    ensures |TrimEnd(s)| <= |s| && TrimEnd(s) == s[..|TrimEnd(s)|]
  {
    if s != [] && IsSpace(s[|s| - 1]) {
      TrimEndPrefix(s[..|s| - 1]);
    }
  }

  /** `s.trim()` */
  function Trim(s: string): (r: string)
    ensures IsTrimmed(r)
  {
    var t := TrimStart(s);
    TrimEndPrefix(t);
    TrimEnd(t)
  }

  predicate IsTrimmed(s: string) {
    s == [] || (!IsSpace(s[0]) && !IsSpace(s[|s| - 1]))
  }

  lemma TrimOfTrimmed(s: string)
    requires IsTrimmed(s)
    ensures Trim(s) == s
  {
  }

  function LowerChar(c: char): char {
    if 'A' <= c <= 'Z' then (c as int + 32) as char else c
  }

  function UpperChar(c: char): char {
    if 'a' <= c <= 'z' then (c as int - 32) as char else c
  }

  /** `s.toLowerCase()` on the ASCII letters. */
  function ToLower(s: string): (r: string)
    ensures |r| == |s| && forall i :: 0 <= i < |s| ==> r[i] == LowerChar(s[i])
  {
    seq(|s|, i requires 0 <= i < |s| => LowerChar(s[i]))
  }

  /** `s.toUpperCase()` on the ASCII letters. */
  function ToUpper(s: string): (r: string)
    ensures |r| == |s| && forall i :: 0 <= i < |s| ==> r[i] == UpperChar(s[i])
  {
    seq(|s|, i requires 0 <= i < |s| => UpperChar(s[i]))
  }

  /** `s.split(c)` for a one-character separator. */
  function Split(s: string, c: char): (parts: seq<string>)
    ensures |parts| >= 1
    ensures forall p :: p in parts ==> c !in p
  {
    if s == [] then [""]
    else
      var rest := Split(s[1..], c);
      if s[0] == c then [""] + rest else [[s[0]] + rest[0]] + rest[1..]
  }

  /** `parts.join(sep)` */
  function Join(parts: seq<string>, sep: string): string {
    if parts == [] then ""
    else if |parts| == 1 then parts[0]
    else parts[0] + sep + Join(parts[1..], sep)
  }

  lemma {:induction false} JoinSplit(s: string, c: char)
    ensures Join(Split(s, c), [c]) == s
  {
    if s != [] {
      var rest := Split(s[1..], c);
      JoinSplit(s[1..], c);
      if s[0] == c {
        assert Split(s, c) == [""] + rest;
      } else {
        var parts := Split(s, c);
        assert parts == [[s[0]] + rest[0]] + rest[1..];
        if |rest| == 1 {
          assert Join(rest, [c]) == rest[0];
        } else {
          assert Join(rest, [c]) == rest[0] + [c] + Join(rest[1..], [c]);
          assert parts[1..] == rest[1..];
        }
      }
    }
  }

  lemma {:induction false} SplitWithout(s: string, c: char)
    requires c !in s
    ensures Split(s, c) == [s]
  {
    if s != [] {
      SplitWithout(s[1..], c);
      assert [s[0]] + s[1..] == s;
    }
  }

  /** `s.startsWith(p)`, also `/^p/.test(s)` */
  predicate StartsWith(s: string, p: string) {
    |p| <= |s| && s[..|p|] == p
  }

  /** `s.includes(sub)`, also `s.indexOf(sub) >= 0` */
  predicate Contains(s: string, sub: string)
    decreases |s|
  {
    StartsWith(s, sub) || (s != [] && Contains(s[1..], sub))
  }

  lemma {:induction false} ContainsAt(s: string, sub: string, i: nat)
    requires i + |sub| <= |s| && s[i..i + |sub|] == sub
    ensures Contains(s, sub)
  {
    if i > 0 {
      assert s[1..][i - 1..i - 1 + |sub|] == s[i..i + |sub|];
      ContainsAt(s[1..], sub, i - 1);
    }
  }

  /** `s.replace(pat, rep)` with a string pattern: only the first occurrence is replaced. */
  function ReplaceFirst(s: string, pat: string, rep: string): string
    decreases |s|
  {
    if StartsWith(s, pat) then rep + s[|pat|..]
    else if s == [] then s
    else [s[0]] + ReplaceFirst(s[1..], pat, rep)
  }

  lemma {:induction false} ReplaceFirstAbsent(s: string, pat: string, rep: string)
    requires !Contains(s, pat)
    ensures ReplaceFirst(s, pat, rep) == s
  {
    if s != [] {
      ReplaceFirstAbsent(s[1..], pat, rep);
    }
  }

  predicate IsDigit(c: char) {
    '0' <= c <= '9'
  }

  predicate AllDigits(s: string) {
    forall i :: 0 <= i < |s| ==> IsDigit(s[i])
  }

  predicate HasDigit(s: string) {
    exists i :: 0 <= i < |s| && IsDigit(s[i])
  }

  /** The value of a string of decimal digits. */
  function DigitsValue(d: string): nat
    requires AllDigits(d)
  {
    if d == [] then 0 else 10 * DigitsValue(d[..|d| - 1]) + (d[|d| - 1] as int - '0' as int)
  }

  /** The run of digits `s` starts with. */
  function LeadingDigits(s: string): (d: string)
    ensures |d| <= |s| && d == s[..|d|] && AllDigits(d)
    ensures |d| < |s| ==> !IsDigit(s[|d|])
  {
    if s != [] && IsDigit(s[0]) then [s[0]] + LeadingDigits(s[1..]) else ""
  }

  /** `parseInt(s)` for a string that starts with digits; anything else is NaN, here None. */
  function ParseInt(s: string): (r: Option<nat>)
    ensures r.Some? <==> s != [] && IsDigit(s[0])
  {
    var d := LeadingDigits(s);
    if d == [] then None else Some(DigitsValue(d))
  }

  /** The first run of digits in `s`: `/\d+/.exec(s)[0]`, None when `exec` returns null. */
  function FirstDigitRun(s: string): (r: Option<string>)
    ensures r.Some? <==> HasDigit(s)
    ensures r.Some? ==> r.value != [] && AllDigits(r.value)
  {
    if s == [] then None
    else if IsDigit(s[0]) then Some(LeadingDigits(s))
    else
      var r := FirstDigitRun(s[1..]);
      assert HasDigit(s[1..]) ==> HasDigit(s) by {
        if HasDigit(s[1..]) {
          var i :| 0 <= i < |s[1..]| && IsDigit(s[1..][i]);
          assert IsDigit(s[i + 1]);
        }
      }
      r
  }

  function DigitChar(d: nat): char
    requires d < 10
  {
    ('0' as int + d) as char
  }

  /** The decimal rendering of a natural number, as `String(n)` gives it. */
  function NatToString(n: nat): (s: string)
    ensures s != [] && AllDigits(s)
    ensures DigitsValue(s) == n
  {
    if n < 10 then [DigitChar(n)]
    else
      var s := NatToString(n / 10) + [DigitChar(n % 10)];
      assert s[..|s| - 1] == NatToString(n / 10);
      s
  }

  /** `String(i)` */
  function IntToString(i: int): string {
    if i < 0 then "-" + NatToString(-i) else NatToString(i)
  }

  // ---------------------------------------------------------------- ordering

  /** The order `Array.prototype.sort` uses by default: lexicographic on characters. */
  predicate StrLe(a: string, b: string)
    decreases |a|
  {
    a == [] || (b != [] && (a[0] < b[0] || (a[0] == b[0] && StrLe(a[1..], b[1..]))))
  }

  lemma {:induction false} StrLeReflexive(a: string)
    ensures StrLe(a, a)
    decreases |a|
  {
    if a != [] {
      StrLeReflexive(a[1..]);
    }
  }

  lemma {:induction false} StrLeTotal(a: string, b: string)
    ensures StrLe(a, b) || StrLe(b, a)
    decreases |a|
  {
    if a != [] && b != [] && a[0] == b[0] {
      StrLeTotal(a[1..], b[1..]);
    }
  }

  lemma {:induction false} StrLeAntisymmetric(a: string, b: string)
    requires StrLe(a, b) && StrLe(b, a)
    ensures a == b
    decreases |a|
  {
    if a != [] {
      StrLeAntisymmetric(a[1..], b[1..]);
      assert a == [a[0]] + a[1..];
      assert b == [b[0]] + b[1..];
    }
  }

  lemma {:induction false} StrLeTransitive(a: string, b: string, c: string)
    requires StrLe(a, b) && StrLe(b, c)
    ensures StrLe(a, c)
    decreases |a|
  {
    if a != [] && b != [] && c != [] && a[0] == b[0] && b[0] == c[0] {
      StrLeTransitive(a[1..], b[1..], c[1..]);
    }
  }

  predicate SortedStrings(s: seq<string>) {
    forall i, j :: 0 <= i < j < |s| ==> StrLe(s[i], s[j])
  }

  function InsertString(x: string, s: seq<string>): (r: seq<string>)
    requires SortedStrings(s)
    ensures SortedStrings(r)
    ensures multiset(r) == multiset(s) + multiset{x}
  {
    if s == [] then [x]
    else if StrLe(x, s[0]) then
      InsertAtHead(x, s);
      [x] + s
    else
      var rest := InsertString(x, s[1..]);
      InsertBehindHead(x, s, rest);
      [s[0]] + rest
  }

  lemma InsertAtHead(x: string, s: seq<string>)
    requires SortedStrings(s) && s != [] && StrLe(x, s[0])
    ensures SortedStrings([x] + s)
  {
    forall j | 0 <= j < |s| ensures StrLe(x, s[j]) {
      if j > 0 { StrLeTransitive(x, s[0], s[j]); }
    }
    assert forall j :: 1 <= j < |[x] + s| ==> ([x] + s)[j] == s[j - 1];
  }

  lemma InsertBehindHead(x: string, s: seq<string>, rest: seq<string>)
    requires SortedStrings(s) && s != [] && !StrLe(x, s[0])
    requires SortedStrings(rest) && multiset(rest) == multiset(s[1..]) + multiset{x}
    ensures SortedStrings([s[0]] + rest)
    ensures multiset([s[0]] + rest) == multiset(s) + multiset{x}
  {
    StrLeTotal(x, s[0]);
    assert s == [s[0]] + s[1..];
    forall y | y in rest ensures StrLe(s[0], y) {
      assert y in multiset(rest);
      if y != x {
        assert y in multiset(s[1..]);
      }
    }
    assert forall j :: 1 <= j < |[s[0]] + rest| ==> ([s[0]] + rest)[j] == rest[j - 1] && rest[j - 1] in rest;
  }

  /** `s.sort()` on strings. */
  function SortStrings(s: seq<string>): (r: seq<string>)
    ensures SortedStrings(r)
    ensures multiset(r) == multiset(s)
  {
    if s == [] then []
    else
      assert s == [s[0]] + s[1..];
      InsertString(s[0], SortStrings(s[1..]))
  }

  lemma SortedHeadIsLeast(a: seq<string>, x: string)
    requires SortedStrings(a) && x in a
    ensures StrLe(a[0], x)
  {
    var i :| 0 <= i < |a| && a[i] == x;
    if i == 0 { StrLeReflexive(x); }
  }

  lemma SortedTail(a: seq<string>)
    requires SortedStrings(a) && a != []
    ensures SortedStrings(a[1..])
  {
  }

  /** Sorting is determined by the elements alone: two sorted arrangements of one multiset are equal. */
  lemma {:induction false} SortedStringsUnique(a: seq<string>, b: seq<string>)
    requires SortedStrings(a) && SortedStrings(b)
    requires multiset(a) == multiset(b)
    ensures a == b
  {
    if a != [] {
      assert |b| == |a| by { assert |multiset(a)| == |multiset(b)|; }
      assert b[0] in multiset(a) && a[0] in multiset(b);
      SortedHeadIsLeast(a, b[0]);
      SortedHeadIsLeast(b, a[0]);
      StrLeAntisymmetric(a[0], b[0]);
      var ta, tb := a[1..], b[1..];
      assert a == [a[0]] + ta && b == [b[0]] + tb;
      assert multiset(ta) == multiset(tb) by {
        assert multiset(a) == multiset{a[0]} + multiset(ta);
        assert multiset(b) == multiset{a[0]} + multiset(tb);
        forall z ensures multiset(ta)[z] == multiset(tb)[z] {
          assert multiset(a)[z] == multiset(b)[z];
        }
      }
      SortedTail(a);
      SortedTail(b);
      SortedStringsUnique(ta, tb);
    }
  }

  /** The order of the input never shows in the sorted result. */
  lemma SortStringsOrderFree(a: seq<string>, b: seq<string>)
    requires multiset(a) == multiset(b)
    ensures SortStrings(a) == SortStrings(b)
  {
    SortedStringsUnique(SortStrings(a), SortStrings(b));
  }

  predicate SortedBy<T>(s: seq<T>, key: T -> int) {
    forall i, j :: 0 <= i < j < |s| ==> key(s[i]) <= key(s[j])
  }

  function InsertBy<T>(x: T, s: seq<T>, key: T -> int): (r: seq<T>)
    requires SortedBy(s, key)
    ensures SortedBy(r, key)
    ensures multiset(r) == multiset(s) + multiset{x}
  {
    if s == [] || key(s[|s| - 1]) <= key(x) then s + [x]
    else
      var last := s[|s| - 1];
      var init := s[..|s| - 1];
      var rest := InsertBy(x, init, key);
      assert s == init + [last];
      BoundedByMultiset(rest, init, x, key, key(last));
      rest + [last]
  }

  /** Every element of a list holding the elements of `init` and x is at most a bound both respect. */
  lemma BoundedByMultiset<T>(r: seq<T>, init: seq<T>, x: T, key: T -> int, bound: int)
    requires multiset(r) == multiset(init) + multiset{x}
    requires key(x) <= bound && forall i :: 0 <= i < |init| ==> key(init[i]) <= bound
    ensures forall i :: 0 <= i < |r| ==> key(r[i]) <= bound
  {
    forall i | 0 <= i < |r| ensures key(r[i]) <= bound {
      assert r[i] in multiset(r);
      if r[i] != x {
        assert r[i] in multiset(init);
        var j :| 0 <= j < |init| && init[j] == r[i];
      }
    }
  }

  /** `s.sort((a, b) => key(a) - key(b))`, a stable sort by an integer key. */
  function SortBy<T>(s: seq<T>, key: T -> int): (r: seq<T>)
    ensures SortedBy(r, key)
    ensures multiset(r) == multiset(s)
  {
    if s == [] then []
    else
      assert s == s[..|s| - 1] + [s[|s| - 1]];
      InsertBy(s[|s| - 1], SortBy(s[..|s| - 1], key), key)
  }

  function Id(x: int): int { x }

  /** `s.sort((a, b) => a - b)` */
  function SortInts(s: seq<int>): (r: seq<int>)
    ensures forall i, j :: 0 <= i < j < |r| ==> r[i] <= r[j]
    ensures multiset(r) == multiset(s)
  {
    var r := SortBy(s, Id);
    assert forall i, j :: 0 <= i < j < |r| ==> Id(r[i]) <= Id(r[j]);
    r
  }

  predicate Ascending(s: seq<int>) {
    forall i, j :: 0 <= i < j < |s| ==> s[i] <= s[j]
  }

  /** The head of an ascending list is at most each of its elements. */
  lemma AscendingHead(a: seq<int>, x: int)
    requires Ascending(a) && x in multiset(a)
    ensures a[0] <= x
  {
    var i :| 0 <= i < |a| && a[i] == x;
  }

  /** Removing equal heads from two lists with the same elements leaves tails with the same elements. */
  lemma SameTails(a: seq<int>, b: seq<int>)
    requires a != [] && b != [] && a[0] == b[0] && multiset(a) == multiset(b)
    ensures multiset(a[1..]) == multiset(b[1..])
  {
    assert a == [a[0]] + a[1..] && b == [b[0]] + b[1..];
    assert multiset(a[1..]) == multiset(a) - multiset{a[0]};
    assert multiset(b[1..]) == multiset(b) - multiset{b[0]};
  }

  /** Two ascending arrangements of one multiset of integers are equal. */
  lemma {:induction false} AscendingUnique(a: seq<int>, b: seq<int>)
    requires Ascending(a) && Ascending(b)
    requires multiset(a) == multiset(b)
    ensures a == b
  {
    if a != [] {
      assert |b| == |a| by { assert |multiset(a)| == |multiset(b)|; }
      AscendingHead(a, b[0]);
      AscendingHead(b, a[0]);
      SameTails(a, b);
      AscendingUnique(a[1..], b[1..]);
      assert a == [a[0]] + a[1..] && b == [b[0]] + b[1..];
    }
  }

  /** The order of the input never shows in the sorted integers. */
  lemma SortIntsOrderFree(a: seq<int>, b: seq<int>)
    requires multiset(a) == multiset(b)
    ensures SortInts(a) == SortInts(b)
  {
    AscendingUnique(SortInts(a), SortInts(b));
  }

  /** `s.indexOf(x)`, -1 when absent. */
  function IndexOf<T(==)>(s: seq<T>, x: T): (i: int)
    ensures -1 <= i < |s|
    ensures i == -1 <==> x !in s
    ensures i >= 0 ==> s[i] == x && x !in s[..i]
  {
    if s == [] then -1
    else if s[0] == x then 0
    else
      var k := IndexOf(s[1..], x);
      assert k >= 0 ==> s[1..][..k] == s[1..k + 1];
      if k < 0 then -1 else k + 1
  }

  // ---------------------------------------------------------------- filters

  /** `s.filter(p)` */
  function Filter<T>(s: seq<T>, p: T -> bool): (r: seq<T>)
    ensures |r| <= |s|
    ensures forall i :: 0 <= i < |r| ==> p(r[i])
  {
    if s == [] then [] else (if p(s[0]) then [s[0]] else []) + Filter(s[1..], p)
  }

  lemma {:induction false} FilterAppend<T>(s: seq<T>, x: T, p: T -> bool)
    ensures Filter(s + [x], p) == Filter(s, p) + (if p(x) then [x] else [])
  {
    if s == [] {
      assert [] + [x] == [x];
    } else {
      assert (s + [x])[1..] == s[1..] + [x];
      FilterAppend(s[1..], x, p);
    }
  }

  lemma {:induction false} FilterMembers<T>(s: seq<T>, p: T -> bool, x: T)
    ensures x in Filter(s, p) <==> x in s && p(x)
  {
    if s != [] {
      FilterMembers(s[1..], p, x);
      assert x in s <==> x == s[0] || x in s[1..];
    }
  }

  lemma {:induction false} FilterSame<T>(s: seq<T>, p: T -> bool, q: T -> bool)
    requires forall x :: p(x) == q(x)
    ensures Filter(s, p) == Filter(s, q)
  {
    if s != [] { FilterSame(s[1..], p, q); }
  }

  /** The k-th element kept by a filter is the element of `s` that has exactly k kept elements before it. */
  lemma {:induction false} FilterNth<T>(s: seq<T>, p: T -> bool, k: nat)
    requires k < |Filter(s, p)|
    ensures exists i :: 0 <= i < |s| && p(s[i]) && |Filter(s[..i], p)| == k && Filter(s, p)[k] == s[i]
  {
    if p(s[0]) && k == 0 {
      assert s[..0] == [];
      assert Filter(s, p)[0] == s[0];
    } else {
      var k' := if p(s[0]) then k - 1 else k;
      assert Filter(s, p) == (if p(s[0]) then [s[0]] else []) + Filter(s[1..], p);
      FilterNth(s[1..], p, k');
      var i :| 0 <= i < |s[1..]| && p(s[1..][i]) && |Filter(s[1..][..i], p)| == k' && Filter(s[1..], p)[k'] == s[1..][i];
      assert s[..i + 1][1..] == s[1..][..i];
      assert s[..i + 1][0] == s[0];
      assert s[..i + 1] != [];
      assert Filter(s[..i + 1], p) == (if p(s[0]) then [s[0]] else []) + Filter(s[1..][..i], p);
    }
  }

  /** The elements before the k-th kept one contribute exactly k kept elements, so a filter is a prefix count. */
  lemma {:induction false} FilterEmptyIffNone<T>(s: seq<T>, p: T -> bool)
    ensures Filter(s, p) == [] <==> forall i :: 0 <= i < |s| ==> !p(s[i])
  {
    if s != [] {
      FilterEmptyIffNone(s[1..], p);
      if forall i :: 0 <= i < |s[1..]| ==> !p(s[1..][i]) {
        assert forall i :: 1 <= i < |s| ==> s[i] == s[1..][i - 1];
      }
    }
  }

  // ---------------------------------------------------------------- more strings

  /** `s.split('').reverse().join('')` */
  function Reverse<T>(s: seq<T>): (r: seq<T>)
    ensures |r| == |s| && forall i :: 0 <= i < |s| ==> r[i] == s[|s| - 1 - i]
  {
    if s == [] then [] else Reverse(s[1..]) + [s[0]]
  }

  lemma ReverseReverse<T>(s: seq<T>)
    ensures Reverse(Reverse(s)) == s
  {
  }

  lemma ReverseMembers<T>(s: seq<T>)
    ensures forall i :: 0 <= i < |s| ==> s[i] in Reverse(s)
    ensures forall i :: 0 <= i < |s| ==> Reverse(s)[i] in s
  {
    forall i | 0 <= i < |s| ensures s[i] in Reverse(s) {
      assert Reverse(s)[|s| - 1 - i] == s[i];
    }
  }

  lemma ReverseConcat<T>(a: seq<T>, b: seq<T>)
    ensures Reverse(a + b) == Reverse(b) + Reverse(a)
  {
    assert forall i :: 0 <= i < |a + b| ==> Reverse(a + b)[i] == (Reverse(b) + Reverse(a))[i];
  }

  lemma {:induction false} SplitAppend(a: string, c: char, b: string)
    requires c !in a
    ensures Split(a + [c] + b, c) == [a] + Split(b, c)
  {
    if a == [] {
      assert a + [c] + b == [c] + b;
      assert ([c] + b)[1..] == b;
    } else {
      assert (a + [c] + b)[1..] == a[1..] + [c] + b;
      SplitAppend(a[1..], c, b);
      assert [a[0]] + a[1..] == a;
    }
  }

  /** Joining the parts of a split restores the text. */
  lemma {:induction false} SplitJoin(parts: seq<string>, c: char)
    requires |parts| >= 1 && forall p :: p in parts ==> c !in p
    ensures Split(Join(parts, [c]), c) == parts
  {
    if |parts| == 1 {
      SplitWithout(parts[0], c);
    } else {
      assert forall p :: p in parts[1..] ==> p in parts;
      SplitJoin(parts[1..], c);
      assert parts[0] in parts;
      SplitAppend(parts[0], c, Join(parts[1..], [c]));
    }
  }

  /** `s.split(c).join(d)` for one-character strings: every c becomes d. */
  function ReplaceChar(s: string, c: char, d: char): (r: string)
    ensures |r| == |s| && forall i :: 0 <= i < |s| ==> r[i] == if s[i] == c then d else s[i]
  {
    seq(|s|, i requires 0 <= i < |s| => if s[i] == c then d else s[i])
  }

  lemma {:induction false} JoinSplitReplace(s: string, c: char, d: char)
    ensures Join(Split(s, c), [d]) == ReplaceChar(s, c, d)
  {
    if s != [] {
      var rest := Split(s[1..], c);
      JoinSplitReplace(s[1..], c, d);
      ReplaceCharCons(s, c, d);
      if s[0] == c {
        assert Split(s, c) == [""] + rest;
        assert Join([""] + rest, [d]) == [d] + Join(rest, [d]) by {
          assert ([""] + rest)[1..] == rest;
        }
      } else {
        assert Split(s, c) == [[s[0]] + rest[0]] + rest[1..];
        JoinConsHead(s[0], rest, [d]);
      }
    }
  }

  lemma ReplaceCharCons(s: string, c: char, d: char)
    requires s != []
    ensures ReplaceChar(s, c, d) == [if s[0] == c then d else s[0]] + ReplaceChar(s[1..], c, d)
  {
  }

  /** Putting a character in front of the first part puts it in front of the joined text. */
  lemma JoinConsHead(x: char, rest: seq<string>, sep: string)
    requires |rest| >= 1
    ensures Join([[x] + rest[0]] + rest[1..], sep) == [x] + Join(rest, sep)
  {
    var parts := [[x] + rest[0]] + rest[1..];
    if |rest| > 1 {
      assert parts[1..] == rest[1..];
    }
  }

  lemma {:induction false} SplitMembers(s: string, c: char)
    ensures forall p, x :: p in Split(s, c) && x in p ==> x in s
  {
    if s != [] {
      SplitMembers(s[1..], c);
    }
  }

  lemma TrimMembers(s: string)
    ensures forall x :: x in Trim(s) ==> x in s
    ensures forall x :: x in TrimStart(s) ==> x in s
  {
    var t := TrimStart(s);
    TrimStartSuffix(s);
    TrimEndPrefix(t);
    assert forall x :: x in t ==> x in s by {
      forall x | x in t ensures x in s {
        var i :| 0 <= i < |t| && t[i] == x;
        assert s[|s| - |t| + i] == x;
      }
    }
    var u := TrimEnd(t);
    forall x | x in u ensures x in s {
      var i :| 0 <= i < |u| && u[i] == x;
      assert t[i] == x;
    }
  }

  lemma TrimSpaceThen(c: char, rest: string)
    requires !IsSpace(c) && IsTrimmed([c] + rest)
    ensures Trim([' '] + [c] + rest) == [c] + rest
  {
    var t := [c] + rest;
    assert ([' '] + [c] + rest)[1..] == t;
    assert TrimStart([' '] + [c] + rest) == TrimStart(t) == t;
    assert TrimEnd(t) == t;
  }

  predicate LowerStable(s: string) {
    forall i :: 0 <= i < |s| ==> LowerChar(s[i]) == s[i]
  }

  lemma LowerStableToLower(s: string)
    ensures LowerStable(ToLower(s))
    ensures LowerStable(s) ==> ToLower(s) == s
  {
  }
}
