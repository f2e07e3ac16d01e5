/** A dictionary that remembers the order its keys were first inserted in, as Python's does. */
module OrderedDict {
  datatype Dict<K(==), +V> = Dict(order: seq<K>, at: map<K, V>)

  ghost predicate WellFormed<K, V>(d: Dict<K, V>)
  {
    && (forall i, j :: 0 <= i < j < |d.order| ==> d.order[i] != d.order[j])
    && (forall k :: k in d.at ==> k in d.order) && (forall k :: k in d.order ==> k in d.at)
  }

  function Empty<K(==), V>(): Dict<K, V> { Dict([], map[]) }

  /** `d[k] = v`: a known key keeps its place. */
  function Put<K(==), V>(d: Dict<K, V>, k: K, v: V): Dict<K, V>
  {
    Dict(if k in d.at then d.order else d.order + [k], d.at[k := v])
  }

  lemma PutKeepsForm<K, V>(d: Dict<K, V>, k: K, v: V)
    requires WellFormed(d)
    ensures WellFormed(Put(d, k, v))
  {
  }

  lemma NewKeyKeepsForm<K, V>(d: Dict<K, V>, k: K, v: V)
    requires WellFormed(d) && k !in d.at
    ensures WellFormed(Put(d, k, v)) && |Put(d, k, v).order| == |d.order| + 1
  {
  }

  // ---------------------------------------------------------------- listing and rebuilding

  function Items<K, V>(d: Dict<K, V>): seq<(K, V)>
    requires WellFormed(d)
  {
    seq(|d.order|, i requires 0 <= i < |d.order| => (d.order[i], d.at[d.order[i]]))
  }

  /** `{k: v for k, v in items}`. */
  function FromItems<K(==), V>(items: seq<(K, V)>): Dict<K, V>
  {
    if items == [] then Empty()
    else Put(FromItems(items[..|items| - 1]), items[|items| - 1].0, items[|items| - 1].1)
  }

  lemma {:induction false} FromDistinctItems<K, V>(items: seq<(K, V)>)
    requires forall i, j :: 0 <= i < j < |items| ==> items[i].0 != items[j].0
    ensures FromItems(items).order == seq(|items|, i requires 0 <= i < |items| => items[i].0)
    ensures forall i :: 0 <= i < |items| ==> items[i].0 in FromItems(items).at && FromItems(items).at[items[i].0] == items[i].1
    ensures forall k :: k in FromItems(items).at ==> exists i :: 0 <= i < |items| && items[i].0 == k
  {
    if items != [] {
      var front := items[..|items| - 1];
      FromDistinctItems(front);
      assert forall i :: 0 <= i < |front| ==> front[i] == items[i];
    }
  }

  /** Listing a dictionary and rebuilding it from the list gives the dictionary back, order and all. */
  lemma RebuiltFromItems<K, V>(d: Dict<K, V>)
    requires WellFormed(d)
    ensures FromItems(Items(d)) == d
  {
    var items := Items(d);
    FromDistinctItems(items);
    assert FromItems(items).order == d.order;
    forall k ensures k in FromItems(items).at <==> k in d.at {
      if k in d.at {
        var i :| 0 <= i < |d.order| && d.order[i] == k;
        assert items[i].0 == k;
      }
    }
    assert FromItems(items).at == d.at;
  }

  // ---------------------------------------------------------------- totals

  function Total<K, V>(order: seq<K>, at: map<K, V>, weigh: V -> nat): nat
    requires forall i :: 0 <= i < |order| ==> order[i] in at
  {
    if order == [] then 0
    else Total(order[..|order| - 1], at, weigh) + weigh(at[order[|order| - 1]])
  }

  function Weight<K, V>(d: Dict<K, V>, weigh: V -> nat): nat
    requires WellFormed(d)
  {
    Total(d.order, d.at, weigh)
  }

  lemma {:induction false} TotalIgnoresOthers<K, V>(order: seq<K>, at: map<K, V>, k: K, v: V, weigh: V -> nat)
    requires (forall i :: 0 <= i < |order| ==> order[i] in at) && k !in order
    ensures Total(order, at[k := v], weigh) == Total(order, at, weigh)
  {
    if order != [] { TotalIgnoresOthers(order[..|order| - 1], at, k, v, weigh); }
  }

  lemma {:induction false} TotalReplaces<K, V>(order: seq<K>, at: map<K, V>, k: K, v: V, weigh: V -> nat)
    requires (forall i :: 0 <= i < |order| ==> order[i] in at) && k in order
    requires forall i, j :: 0 <= i < j < |order| ==> order[i] != order[j]
    ensures Total(order, at[k := v], weigh) + weigh(at[k]) == Total(order, at, weigh) + weigh(v)
  {
    var front := order[..|order| - 1];
    if order[|order| - 1] == k {
      TotalIgnoresOthers(front, at, k, v, weigh);
    } else {
      TotalReplaces(front, at, k, v, weigh);
    }
  }

  lemma TotalExtends<K, V>(order: seq<K>, at: map<K, V>, k: K, weigh: V -> nat)
    requires (forall i :: 0 <= i < |order| ==> order[i] in at) && k in at
    ensures forall i :: 0 <= i < |order + [k]| ==> (order + [k])[i] in at
    ensures Total(order + [k], at, weigh) == Total(order, at, weigh) + weigh(at[k])
  {
    assert (order + [k])[..|order|] == order;
  }

  /** The weight after one assignment: the new value comes in, the value it replaces goes out. */
  lemma PutWeighs<K, V>(d: Dict<K, V>, k: K, v: V, weigh: V -> nat)
    requires WellFormed(d)
    ensures WellFormed(Put(d, k, v))
    ensures Weight(Put(d, k, v), weigh) + (if k in d.at then weigh(d.at[k]) else 0) == Weight(d, weigh) + weigh(v)
  {
    PutKeepsForm(d, k, v);
    if k in d.at {
      TotalReplaces(d.order, d.at, k, v, weigh);
    } else {
      TotalIgnoresOthers(d.order, d.at, k, v, weigh);
      TotalExtends(d.order, d.at[k := v], k, weigh);
    }
  }
}
