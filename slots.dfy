/**
 * Rounds in which some matchUps are named in place. Both knockout builders
 * (`constructKnockOut` and the legacy knockout branch) add the winners' names
 * to the very matchUp objects that sit in the returned rounds and also return
 * those objects as a list. On values, a round entry is then either the matchUp
 * as it was built or its named form, and the list of named matchUps is read
 * off the rounds.
 */
module Slots {
  import opened Common

  /** A round entry: the matchUp as built (`B`), or the named matchUp (`N`) that replaced it. */
  datatype Slot<B, N> = AsBuilt(m: B) | AsNamed(named: N)

  /** The matchUp underneath the entry; `unname` recovers it from a named one. */
  function Base<B, N>(s: Slot<B, N>, unname: N -> B): B {
    if s.AsBuilt? then s.m else unname(s.named)
  }

  /** The entry once the `chosen` matchUps are named with `name`. */
  function Place<B, N>(m: B, chosen: B -> bool, name: B -> N): Slot<B, N> {
    if chosen(m) then AsNamed(name(m)) else AsBuilt(m)
  }

  function PlaceAll<B, N>(ms: seq<B>, chosen: B -> bool, name: B -> N): (r: seq<Slot<B, N>>)
    ensures |r| == |ms| && forall k :: 0 <= k < |ms| ==> r[k] == Place(ms[k], chosen, name)
  {
    seq(|ms|, k requires 0 <= k < |ms| => Place(ms[k], chosen, name))
  }

  function PlaceRounds<B, N>(rounds: seq<seq<B>>, chosen: B -> bool, name: B -> N): (r: seq<seq<Slot<B, N>>>)
    ensures |r| == |rounds| && forall i :: 0 <= i < |rounds| ==> r[i] == PlaceAll(rounds[i], chosen, name)
  {
    seq(|rounds|, i requires 0 <= i < |rounds| => PlaceAll(rounds[i], chosen, name))
  }

  /** The named matchUps among `rs`, in order. */
  function NamedIn<B, N>(rs: seq<Slot<B, N>>): seq<N> {
    if rs == [] then [] else (if rs[0].AsNamed? then [rs[0].named] else []) + NamedIn(rs[1..])
  }

  function BaseAll<B, N>(rs: seq<Slot<B, N>>, unname: N -> B): (r: seq<B>)
    ensures |r| == |rs| && forall k :: 0 <= k < |rs| ==> r[k] == Base(rs[k], unname)
  {
    seq(|rs|, k requires 0 <= k < |rs| => Base(rs[k], unname))
  }

  /** The rounds underneath the names. */
  function BaseRounds<B, N>(rs: seq<seq<Slot<B, N>>>, unname: N -> B): (r: seq<seq<B>>)
    ensures |r| == |rs| && forall i :: 0 <= i < |rs| ==> r[i] == BaseAll(rs[i], unname)
  {
    seq(|rs|, i requires 0 <= i < |rs| => BaseAll(rs[i], unname))
  }

  /** Naming `m` keeps `m` underneath. */
  ghost predicate Keeps<B(!new), N>(chosen: B -> bool, name: B -> N, unname: N -> B) {
    forall m :: chosen(m) ==> unname(name(m)) == m
  }

  /** Naming commutes with joining the rounds into one list. */
  lemma {:induction false} FlattenPlaced<B, N>(rounds: seq<seq<B>>, chosen: B -> bool, name: B -> N)
    ensures Flatten(PlaceRounds(rounds, chosen, name)) == PlaceAll(Flatten(rounds), chosen, name)
  {
    if rounds != [] {
      FlattenPlaced(rounds[1..], chosen, name);
      assert PlaceRounds(rounds, chosen, name)[1..] == PlaceRounds(rounds[1..], chosen, name);
      assert PlaceAll(rounds[0] + Flatten(rounds[1..]), chosen, name)
        == PlaceAll(rounds[0], chosen, name) + PlaceAll(Flatten(rounds[1..]), chosen, name);
    }
  }

  /** Underneath the names, a list is the one built. */
  lemma BasePlaced<B(!new), N>(ms: seq<B>, chosen: B -> bool, name: B -> N, unname: N -> B)
    requires Keeps(chosen, name, unname)
    ensures BaseAll(PlaceAll(ms, chosen, name), unname) == ms
  {
    forall k | 0 <= k < |ms| ensures Base(Place(ms[k], chosen, name), unname) == ms[k] {
    }
  }

  /** Underneath the names, the rounds are the ones built. */
  lemma BaseRoundsPlaced<B(!new), N>(rounds: seq<seq<B>>, chosen: B -> bool, name: B -> N, unname: N -> B)
    requires Keeps(chosen, name, unname)
    ensures BaseRounds(PlaceRounds(rounds, chosen, name), unname) == rounds
  {
    forall i | 0 <= i < |rounds| ensures BaseAll(PlaceAll(rounds[i], chosen, name), unname) == rounds[i] {
      BasePlaced(rounds[i], chosen, name, unname);
    }
  }

  /** The named matchUps among the placed ones are the chosen matchUps, named, in order. */
  lemma {:induction false} NamedInPlaced<B, N>(ms: seq<B>, chosen: B -> bool, name: B -> N)
    ensures var named := NamedIn(PlaceAll(ms, chosen, name));
      var picked := Filter(ms, chosen);
      |named| == |picked| && forall k :: 0 <= k < |picked| ==> named[k] == name(picked[k])
  {
    if ms != [] {
      NamedInPlaced(ms[1..], chosen, name);
      assert PlaceAll(ms, chosen, name)[1..] == PlaceAll(ms[1..], chosen, name);
    }
  }

  /** In the rounds, an entry is named exactly when the matchUp underneath it is chosen. */
  lemma PlacedNamed<B(!new), N>(rounds: seq<seq<B>>, chosen: B -> bool, name: B -> N, unname: N -> B)
    requires Keeps(chosen, name, unname)
    ensures var placed := PlaceRounds(rounds, chosen, name);
      forall i, j :: 0 <= i < |placed| && 0 <= j < |placed[i]| ==> (placed[i][j].AsNamed? <==> chosen(Base(placed[i][j], unname)))
  {
  }
}
