/**
 * Plain JavaScript objects used as dictionaries with string keys: their keys
 * in insertion order, each with its value. `Object.assign` overwrites the
 * value of a key already present, in its place, and appends a new key.
 */
module Objects {
  import opened Common

  type Object<V> = seq<(string, V)>

  /** `Object.keys(o)` */
  function Keys<V>(o: Object<V>): (r: seq<string>)
    ensures |r| == |o| && forall i :: 0 <= i < |o| ==> r[i] == o[i].0
  {
    if o == [] then [] else [o[0].0] + Keys(o[1..])
  }

  /** `Object.values(o)` */
  function Values<V>(o: Object<V>): (r: seq<V>)
    ensures |r| == |o| && forall i :: 0 <= i < |o| ==> r[i] == o[i].1
  {
    if o == [] then [] else [o[0].1] + Values(o[1..])
  }

  /** Every key occurs once, as in an object. */
  predicate WellKeyed<V>(o: Object<V>) {
    NoDup(Keys(o))
  }

  /** `o[k]`, none when the key is absent. */
  function Get<V>(o: Object<V>, k: string): (r: Option<V>)
    ensures r.None? <==> k !in Keys(o)
  {
    if o == [] then None else if o[0].0 == k then Some(o[0].1) else Get(o[1..], k)
  }

  /** `Object.assign(o, {[k]: v})` */
  function Assign<V>(o: Object<V>, k: string, v: V): Object<V> {
    if o == [] then [(k, v)]
    else if o[0].0 == k then [(k, v)] + o[1..]
    else [o[0]] + Assign(o[1..], k, v)
  }

  /** In an object, the key at position i yields the value at position i. */
  lemma {:induction false} GetAt<V>(o: Object<V>, i: int)
    requires WellKeyed(o) && 0 <= i < |o|
    ensures Get(o, o[i].0) == Some(o[i].1)
  {
    if i > 0 {
      assert Keys(o)[0] != Keys(o)[i];
      assert Keys(o[1..]) == Keys(o)[1..];
      GetAt(o[1..], i - 1);
    }
  }

  /** Assigning keeps the keys in their order and adds a new key at the end. */
  lemma {:induction false} AssignKeyOrder<V>(o: Object<V>, k: string, v: V)
    ensures k in Keys(o) ==> Keys(Assign(o, k, v)) == Keys(o)
    ensures k !in Keys(o) ==> Keys(Assign(o, k, v)) == Keys(o) + [k]
  {
    if o != [] {
      assert Keys(o) == [o[0].0] + Keys(o[1..]);
      if o[0].0 != k {
        AssignKeyOrder(o[1..], k, v);
        assert Keys(Assign(o, k, v)) == [o[0].0] + Keys(Assign(o[1..], k, v));
      }
    }
  }

  /** Assigning keeps every key once. */
  lemma AssignKeys<V>(o: Object<V>, k: string, v: V)
    requires WellKeyed(o)
    ensures var r := Assign(o, k, v);
      && WellKeyed(r)
      && (k in Keys(o) ==> Keys(r) == Keys(o))
      && (k !in Keys(o) ==> Keys(r) == Keys(o) + [k])
  {
    AssignKeyOrder(o, k, v);
  }

  /** Assigning gives the key its new value and leaves every other key as it was. */
  lemma {:induction false} AssignGet<V>(o: Object<V>, k: string, v: V, k': string)
    ensures Get(Assign(o, k, v), k') == if k' == k then Some(v) else Get(o, k')
  {
    if o != [] && o[0].0 != k {
      AssignGet(o[1..], k, v, k');
    }
  }

  /** `Object.assign(o, ...ps)` pair by pair. */
  function AssignAll<V>(o: Object<V>, ps: seq<(string, V)>): Object<V> {
    if ps == [] then o else Assign(AssignAll(o, ps[..|ps| - 1]), ps[|ps| - 1].0, ps[|ps| - 1].1)
  }

  /** The value the last pair with key k gives, if any. */
  function LastFor<V>(ps: seq<(string, V)>, k: string): Option<V> {
    if ps == [] then None
    else if ps[|ps| - 1].0 == k then Some(ps[|ps| - 1].1)
    else LastFor(ps[..|ps| - 1], k)
  }

  /**
   * After assigning a list of pairs, every key occurs once, and the keys are
   * the old ones, in their order, then those the pairs add.
   */
  lemma AssignAllKeys<V>(o: Object<V>, ps: seq<(string, V)>, k: string)
    requires WellKeyed(o)
    ensures var r := AssignAll(o, ps);
      && WellKeyed(r)
      && |Keys(r)| >= |Keys(o)| && Keys(r)[..|o|] == Keys(o)
      && (k in Keys(r) <==> k in Keys(o) || exists i :: 0 <= i < |ps| && ps[i].0 == k)
  {
    AssignAllPrefix(o, ps);
    AssignAllMember(o, ps, k);
  }

  /** Assigning pairs keeps every key once and the old keys first, in their order. */
  lemma {:induction false} AssignAllPrefix<V>(o: Object<V>, ps: seq<(string, V)>)
    requires WellKeyed(o)
    ensures var r := AssignAll(o, ps);
      WellKeyed(r) && |Keys(r)| >= |Keys(o)| && Keys(r)[..|o|] == Keys(o)
  {
    if ps != [] {
      var init := ps[..|ps| - 1];
      var last := ps[|ps| - 1];
      AssignAllPrefix(o, init);
      var before := AssignAll(o, init);
      AssignKeys(before, last.0, last.1);
      if last.0 !in Keys(before) {
        assert (Keys(before) + [last.0])[..|o|] == Keys(before)[..|o|];
      }
    }
  }

  /** A key is present after assigning pairs exactly when it was before or some pair names it. */
  lemma {:induction false} AssignAllMember<V>(o: Object<V>, ps: seq<(string, V)>, k: string)
    ensures k in Keys(AssignAll(o, ps)) <==> k in Keys(o) || NamesKey(ps, k)
  {
    if ps != [] {
      var init := ps[..|ps| - 1];
      var last := ps[|ps| - 1];
      AssignAllMember(o, init, k);
      assert k in Keys(AssignAll(o, ps)) <==> k in Keys(AssignAll(o, init)) || k == last.0 by {
        AssignKeyOrder(AssignAll(o, init), last.0, last.1);
      }
      NamedSnoc(ps, k);
    }
  }

  /** Some pair of ps names k. */
  predicate NamesKey<V>(ps: seq<(string, V)>, k: string) {
    exists i :: 0 <= i < |ps| && ps[i].0 == k
  }

  /** Some pair of ps names k exactly when some pair before the last does, or the last does. */
  lemma NamedSnoc<V>(ps: seq<(string, V)>, k: string)
    requires ps != []
    ensures NamesKey(ps, k) <==> NamesKey(ps[..|ps| - 1], k) || ps[|ps| - 1].0 == k
  {
    var init := ps[..|ps| - 1];
    if NamesKey(ps, k) {
      var i :| 0 <= i < |ps| && ps[i].0 == k;
      if i < |init| { assert init[i] == ps[i]; }
    }
    if NamesKey(init, k) {
      var i :| 0 <= i < |init| && init[i].0 == k;
      assert ps[i] == init[i];
    }
  }

  /** After assigning a list of pairs, each key holds the value of the last pair that names it, or its old value when none does. */
  lemma {:induction false} AssignAllGet<V>(o: Object<V>, ps: seq<(string, V)>, k: string)
    ensures Get(AssignAll(o, ps), k) == if LastFor(ps, k).Some? then LastFor(ps, k) else Get(o, k)
  {
    if ps != [] {
      var init := ps[..|ps| - 1];
      var last := ps[|ps| - 1];
      AssignAllGet(o, init, k);
      AssignGet(AssignAll(o, init), last.0, last.1, k);
    }
  }

  /** The last pair naming a key is one of the pairs, and there is one exactly when the key occurs. */
  lemma {:induction false} LastForAt<V>(ps: seq<(string, V)>, k: string)
    ensures LastFor(ps, k).None? <==> k !in Keys(ps)
    ensures LastFor(ps, k).Some? ==> exists j :: 0 <= j < |ps| && ps[j].0 == k && LastFor(ps, k) == Some(ps[j].1)
  {
    if ps != [] {
      var init := ps[..|ps| - 1];
      LastForAt(init, k);
      assert forall j :: 0 <= j < |init| ==> init[j] == ps[j];
      assert Keys(ps) == Keys(init) + [ps[|ps| - 1].0];
    }
  }

  /** In an object, the last pair naming a key holds the key's value. */
  lemma LastForWellKeyed<V>(o: Object<V>, k: string)
    requires WellKeyed(o)
    ensures LastFor(o, k) == Get(o, k)
  {
    LastForAt(o, k);
    if LastFor(o, k).Some? {
      var j :| 0 <= j < |o| && o[j].0 == k && LastFor(o, k) == Some(o[j].1);
      GetAt(o, j);
    }
  }

  /** Assigning two lists of pairs one after the other is assigning their concatenation. */
  lemma {:induction false} AssignAllAppend<V>(o: Object<V>, p: seq<(string, V)>, q: seq<(string, V)>)
    ensures AssignAll(AssignAll(o, p), q) == AssignAll(o, p + q)
  {
    if q == [] {
      assert p + q == p;
    } else {
      AssignAllAppend(o, p, q[..|q| - 1]);
      assert (p + q)[..|p + q| - 1] == p + q[..|q| - 1];
    }
  }

  /** In a concatenation, the last pair naming a key is in the second part when it names the key at all. */
  lemma {:induction false} LastForAppend<V>(p: seq<(string, V)>, q: seq<(string, V)>, k: string)
    ensures LastFor(p + q, k) == if LastFor(q, k).Some? then LastFor(q, k) else LastFor(p, k)
  {
    if q == [] {
      assert p + q == p;
    } else {
      LastForAppend(p, q[..|q| - 1], k);
      assert (p + q)[..|p + q| - 1] == p + q[..|q| - 1];
    }
  }
}
