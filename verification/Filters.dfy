/**
 * What it means for a list to be another one without some of its elements.
 */
module Filters {
  /** The places, in ascending order, of the elements that are kept. */
  ghost predicate Places<T>(places: seq<nat>, source: seq<T>, keep: T -> bool) {
    && (forall i, j :: 0 <= i < j < |places| ==> places[i] < places[j])
    && (forall i :: 0 <= i < |places| ==> places[i] < |source|)
    && forall j: nat :: j < |source| ==> (j in places <==> keep(source[j]))
  }

  ghost predicate At<T>(result: seq<T>, source: seq<T>, places: seq<nat>) {
    |result| == |places| && forall i :: 0 <= i < |places| ==> places[i] < |source| && result[i] == source[places[i]]
  }

  /** Exactly the elements that are kept, each as often as it occurs and in the
      order of the source. */
  ghost predicate IsFilter<T>(result: seq<T>, source: seq<T>, keep: T -> bool) {
    exists places: seq<nat> :: Places(places, source, keep) && At(result, source, places)
  }

  lemma {:induction false} FilterNone<T>(keep: T -> bool)
    ensures IsFilter([], [], keep)
  {
    assert Places([], [], keep) && At<T>([], [], []);
  }

  lemma {:induction false} KeptPlace<T>(places: seq<nat>, source: seq<T>, x: T, keep: T -> bool)
    requires Places(places, source, keep) && keep(x)
    ensures Places(places + [|source|], source + [x], keep)
  {
    var more: seq<nat> := places + [|source|];
    forall j: nat | j < |source| + 1 ensures j in more <==> keep((source + [x])[j]) {
      assert j in more <==> j in places || j == |source|;
      if j < |source| { assert (source + [x])[j] == source[j]; }
    }
  }

  lemma {:induction false} DroppedPlace<T>(places: seq<nat>, source: seq<T>, x: T, keep: T -> bool)
    requires Places(places, source, keep) && !keep(x)
    ensures Places(places, source + [x], keep)
  {
    forall j: nat | j < |source| + 1 ensures j in places <==> keep((source + [x])[j]) {
      if j < |source| { assert (source + [x])[j] == source[j]; }
    }
  }

  lemma {:induction false} FilterOneMore<T>(result: seq<T>, source: seq<T>, x: T, keep: T -> bool)
    requires IsFilter(result, source, keep)
    ensures IsFilter(if keep(x) then result + [x] else result, source + [x], keep)
  {
    var places: seq<nat> :| Places(places, source, keep) && At(result, source, places);
    hide Places;
    if keep(x) {
      KeptPlace(places, source, x, keep);
      assert At(result + [x], source + [x], places + [|source|]);
    } else {
      DroppedPlace(places, source, x, keep);
      assert At(result, source + [x], places);
    }
  }

  /** The same from the end of the source. */
  lemma {:induction false} FilterLast<T>(before: seq<T>, result: seq<T>, source: seq<T>, keep: T -> bool)
    requires source != [] && IsFilter(before, source[..|source| - 1], keep)
    requires result == if keep(source[|source| - 1]) then before + [source[|source| - 1]] else before
    ensures IsFilter(result, source, keep)
  {
    hide IsFilter;
    FilterOneMore(before, source[..|source| - 1], source[|source| - 1], keep);
    assert source == source[..|source| - 1] + [source[|source| - 1]];
  }

  lemma {:induction false} FilterMembers<T>(result: seq<T>, source: seq<T>, keep: T -> bool, x: T)
    requires IsFilter(result, source, keep)
    ensures x in result <==> x in source && keep(x)
  {
    var places: seq<nat> :| Places(places, source, keep) && At(result, source, places);
    if x in source && keep(x) {
      var j: nat :| j < |source| && source[j] == x;
      assert j in places;
      var i :| 0 <= i < |places| && places[i] == j;
      assert result[i] == x;
    }
    if x in result {
      var i :| 0 <= i < |result| && result[i] == x;
      assert places[i] in places;
    }
  }
}
