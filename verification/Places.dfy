/** Places in a list and in a list of lists, for saying which elements a result takes and in which order. */
module Places {

  predicate Rising(places: seq<nat>) {
    forall i, j :: 0 <= i < j < |places| ==> places[i] < places[j]
  }

  predicate Earlier(p: (nat, nat), q: (nat, nat)) {
    p.0 < q.0 || (p.0 == q.0 && p.1 < q.1)
  }

  predicate InOrder(places: seq<(nat, nat)>) {
    forall i, j :: 0 <= i < j < |places| ==> Earlier(places[i], places[j])
  }

  /** The elements at these places. */
  function Taken<T>(s: seq<T>, places: seq<nat>): (r: seq<T>)
    requires forall i :: 0 <= i < |places| ==> places[i] < |s|
    ensures |r| == |places| && forall i :: 0 <= i < |r| ==> r[i] == s[places[i]]
  {
    seq(|places|, i requires 0 <= i < |places| => s[places[i]])
  }

  lemma TakenMore<T>(s: seq<T>, x: T, places: seq<nat>)
    requires forall i :: 0 <= i < |places| ==> places[i] < |s|
    ensures Taken(s + [x], places) == Taken(s, places)
    ensures Taken(s + [x], places + [|s|]) == Taken(s, places) + [x]
  {
  }

  lemma RisingMore(places: seq<nat>, n: nat)
    requires Rising(places) && forall k: nat :: k in places ==> k < n
    ensures Rising(places + [n]) && forall k: nat :: k in places + [n] <==> k in places || k == n
  {
    assert forall i :: 0 <= i < |places| ==> places[i] in places;
  }
}
