/** A keyed accumulator as the pages build one in a plain object: `acc[key]` is created on first
    sight and then updated in place. The keys are remembered in the order they were first seen. */
module Tallies {

  datatype Tally<S> = Tally(order: seq<string>, stats: map<string, S>)

  function EmptyTally<S>(): Tally<S>
  {
    Tally([], map[])
  }

  /** Every key is listed once, and the listed keys are exactly the keys with an entry. */
  ghost predicate ValidTally<S>(t: Tally<S>)
  {
    && (forall i, j :: 0 <= i < j < |t.order| ==> t.order[i] != t.order[j])
    && (forall k :: k in t.stats <==> k in t.order)
  }

  /** `if (!acc[key]) acc[key] = initial; acc[key] = step(acc[key])` */
  function Bump<S>(t: Tally<S>, key: string, initial: S, step: S -> S): (r: Tally<S>)
    ensures key in r.stats && r.stats[key] == step(if key in t.stats then t.stats[key] else initial)
    ensures forall k :: k in r.stats <==> k in t.stats || k == key
    ensures forall k :: k in t.stats && k != key ==> r.stats[k] == t.stats[k]
    ensures ValidTally(t) ==> ValidTally(r)
  {
    var base := if key in t.stats then t.stats[key] else initial;
    Tally(if key in t.stats then t.order else t.order + [key], t.stats[key := step(base)])
  }

  /** `Object.values(acc)`: the entries in key order. */
  function Values<S>(order: seq<string>, stats: map<string, S>): (r: seq<S>)
    ensures |r| <= |order|
    ensures (forall k :: k in order ==> k in stats) ==>
      |r| == |order| && forall i :: 0 <= i < |order| ==> r[i] == stats[order[i]]
  {
    if order == [] then []
    else (if order[0] in stats then [stats[order[0]]] else []) + Values(order[1..], stats)
  }

  /** Of a valid tally, `Object.values` lists one entry per key. */
  lemma ValuesOfValid<S>(t: Tally<S>)
    requires ValidTally(t)
    ensures |Values(t.order, t.stats)| == |t.order|
    ensures forall v :: v in Values(t.order, t.stats) <==> exists k :: k in t.stats && t.stats[k] == v
  {
    var vs := Values(t.order, t.stats);
    forall v
      ensures v in vs <==> exists k :: k in t.stats && t.stats[k] == v
    {
      if exists k :: k in t.stats && t.stats[k] == v {
        var k :| k in t.stats && t.stats[k] == v;
        var i :| 0 <= i < |t.order| && t.order[i] == k;
        assert vs[i] == v;
      }
    }
  }
}
