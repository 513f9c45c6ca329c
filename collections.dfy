/**
 * `IndexMap<K, V>` as an association sequence: keys are distinct, iteration
 * follows insertion order, and inserting an existing key replaces its value
 * where it stands.
 */
module OrderedMaps {
  import opened Wrappers

  type OrderedMap<K, V> = seq<(K, V)>

  function Keys<K(==), V>(m: OrderedMap<K, V>): (r: seq<K>)
    ensures |r| == |m|
    ensures forall i {:trigger r[i]} :: 0 <= i < |m| ==> r[i] == m[i].0
  {
    seq(|m|, i requires 0 <= i < |m| => m[i].0)
  }

  function Values<K(==), V>(m: OrderedMap<K, V>): (r: seq<V>)
    ensures |r| == |m|
    ensures forall i {:trigger r[i]} :: 0 <= i < |m| ==> r[i] == m[i].1
  {
    seq(|m|, i requires 0 <= i < |m| => m[i].1)
  }

  predicate DistinctKeys<K(==), V>(m: OrderedMap<K, V>) {
    forall i, j :: 0 <= i < j < |m| ==> m[i].0 != m[j].0
  }

  /** `map.get(k)` */
  function Lookup<K(==), V>(m: OrderedMap<K, V>, k: K): (r: Option<V>)
    ensures r.None? <==> k !in Keys(m)
  {
    if m == [] then None
    else if m[0].0 == k then
      assert Keys(m)[0] == k;
      Some(m[0].1)
    else
      assert Keys(m) == [m[0].0] + Keys(m[1..]);
      Lookup(m[1..], k)
  }

  /** Where `k` first stands. */
  function IndexOf<K(==), V>(m: OrderedMap<K, V>, k: K): (i: nat)
    requires k in Keys(m)
    ensures i < |m| && m[i].0 == k
    ensures forall j :: 0 <= j < i ==> m[j].0 != k
  {
    if m[0].0 == k then 0
    else
      assert Keys(m) == [m[0].0] + Keys(m[1..]);
      var i := IndexOf(m[1..], k);
      assert forall j :: 1 <= j <= i ==> m[j] == m[1..][j - 1];
      i + 1
  }

  /** The lookup finds the first pair carrying the key. */
  lemma {:induction false} LookupFirst<K, V>(m: OrderedMap<K, V>, k: K, i: nat)
    requires i < |m| && m[i].0 == k
    requires forall j :: 0 <= j < i ==> m[j].0 != k
    ensures Lookup(m, k) == Some(m[i].1)
  {
    if i > 0 {
      assert forall j :: 0 <= j < i - 1 ==> m[1..][j] == m[j + 1];
      LookupFirst(m[1..], k, i - 1);
    }
  }

  /** `map.insert(k, v)`: replace in place when `k` is present, append otherwise. */
  function Insert<K(==), V>(m: OrderedMap<K, V>, k: K, v: V): (r: OrderedMap<K, V>)
    requires DistinctKeys(m)
    ensures DistinctKeys(r)
    ensures k in Keys(m) ==> Keys(r) == Keys(m)
    ensures k !in Keys(m) ==> Keys(r) == Keys(m) + [k]
    ensures forall i :: 0 <= i < |m| && m[i].0 != k ==> r[i] == m[i]
    ensures Lookup(r, k) == Some(v)
  {
    if k in Keys(m) then
      var i := IndexOf(m, k);
      var r := m[i := (k, v)];
      assert Keys(r) == Keys(m);
      LookupFirst(r, k, i);
      r
    else
      var r := m + [(k, v)];
      assert Keys(r) == Keys(m) + [k];
      assert forall j :: 0 <= j < |m| ==> r[j].0 == Keys(m)[j];
      LookupFirst(r, k, |m|);
      r
  }

  /** `pairs.into_iter().collect::<IndexMap<_, _>>()`: a left fold of `Insert`. */
  function Collect<K(==), V>(pairs: seq<(K, V)>): (r: OrderedMap<K, V>)
    ensures DistinctKeys(r)
    ensures forall i :: 0 <= i < |r| ==> r[i].0 in Keys(pairs)
    ensures forall i :: 0 <= i < |pairs| ==> pairs[i].0 in Keys(r)
  {
    if pairs == [] then []
    else
      var init := pairs[..|pairs| - 1];
      var last := pairs[|pairs| - 1];
      assert Keys(pairs) == Keys(init) + [last.0];
      Insert(Collect(init), last.0, last.1)
  }

  /** The value of the last pair carrying key `k`. */
  function LastValue<K(==), V>(pairs: seq<(K, V)>, k: K): Option<V> {
    if pairs == [] then None
    else if pairs[|pairs| - 1].0 == k then Some(pairs[|pairs| - 1].1)
    else LastValue(pairs[..|pairs| - 1], k)
  }

  /** Collecting keeps, for every key, the value that came last. */
  lemma {:induction false} CollectLastWins<K, V>(pairs: seq<(K, V)>, k: K)
    ensures Lookup(Collect(pairs), k) == LastValue(pairs, k)
  {
    if pairs != [] {
      var init := pairs[..|pairs| - 1];
      var last := pairs[|pairs| - 1];
      CollectLastWins(init, k);
      if last.0 != k {
        InsertOtherKey(Collect(init), last.0, last.1, k);
      }
    }
  }

  /** Inserting one key leaves every other key's value as it was. */
  lemma InsertOtherKey<K, V>(m: OrderedMap<K, V>, k: K, v: V, other: K)
    requires DistinctKeys(m) && other != k
    ensures Lookup(Insert(m, k, v), other) == Lookup(m, other)
  {
    var r := Insert(m, k, v);
    if other in Keys(m) {
      var i := IndexOf(m, other);
      LookupFirst(m, other, i);
      LookupFirst(r, other, i);
    } else {
      assert other !in Keys(r);
    }
  }

  /** When no key repeats, collecting changes nothing: same pairs, same order. */
  lemma {:induction false} CollectDistinct<K, V>(pairs: seq<(K, V)>)
    requires DistinctKeys(pairs)
    ensures Collect(pairs) == pairs
  {
    if pairs != [] {
      var init := pairs[..|pairs| - 1];
      var last := pairs[|pairs| - 1];
      CollectDistinct(init);
      assert last.0 !in Keys(init);
      AppendFresh(init, last.0, last.1);
    }
  }

  /** A fresh key goes at the end. */
  lemma AppendFresh<K, V>(m: OrderedMap<K, V>, k: K, v: V)
    requires DistinctKeys(m) && k !in Keys(m)
    ensures Insert(m, k, v) == m + [(k, v)]
  {
  }

  /** The keys of a collected map are the keys that occur among the pairs. */
  lemma CollectHasKey<K, V>(pairs: seq<(K, V)>, k: K)
    ensures k in Keys(Collect(pairs)) <==> exists i :: 0 <= i < |pairs| && pairs[i].0 == k
  {
    var m := Collect(pairs);
    if k in Keys(m) {
      var i :| 0 <= i < |m| && Keys(m)[i] == k;
      assert m[i].0 in Keys(pairs);
    }
    if exists i :: 0 <= i < |pairs| && pairs[i].0 == k {
      var i :| 0 <= i < |pairs| && pairs[i].0 == k;
      assert pairs[i].0 in Keys(m);
    }
  }
}

/**
 * Collecting an iterator of `Result`s into a `Result` of a vector: every value
 * in order when all calls succeed, otherwise the first error, with no call made
 * after it.
 */
module Fallible {
  import opened Wrappers

  function TryCollect<A, T, E>(args: seq<A>, call: A -> Result<T, E>): (r: Result<seq<T>, E>)
    ensures r.Ok? <==> forall i :: 0 <= i < |args| ==> call(args[i]).Ok?
    ensures r.Ok? ==> |r.value| == |args| && forall i :: 0 <= i < |args| ==> r.value[i] == call(args[i]).value
    ensures r.Err? ==> exists i :: 0 <= i < |args| && call(args[i]) == Err(r.error)
                                   && forall j :: 0 <= j < i ==> call(args[j]).Ok?
  {
    if args == [] then Ok([])
    else match call(args[0])
      case Err(e) => Err(e)
      case Ok(first) =>
        match TryCollect(args[1..], call)
        case Err(e) =>
          assert exists i :: 1 <= i < |args| && call(args[i]) == Err(e) && forall j :: 0 <= j < i ==> call(args[j]).Ok? by {
            var i :| 0 <= i < |args| - 1 && call(args[1..][i]) == Err(e) && forall j :: 0 <= j < i ==> call(args[1..][j]).Ok?;
            forall j | 0 <= j < i + 1 ensures call(args[j]).Ok? {
              if j > 0 { assert args[j] == args[1..][j - 1]; }
            }
            assert call(args[i + 1]) == Err(e);
          }
          Err(e)
        case Ok(rest) =>
          assert forall i :: 1 <= i < |args| ==> args[i] == args[1..][i - 1];
          Ok([first] + rest)
  }

  /** One more successful call extends the collected values by its own. */
  lemma TryCollectSnoc<A, T, E>(args: seq<A>, call: A -> Result<T, E>, i: nat)
    requires i < |args| && TryCollect(args[..i], call).Ok? && call(args[i]).Ok?
    ensures TryCollect(args[..i + 1], call) == Ok(TryCollect(args[..i], call).value + [call(args[i]).value])
  {
    var a := TryCollect(args[..i + 1], call);
    var b := TryCollect(args[..i], call);
    assert args[..i + 1][..i] == args[..i];
    assert a.Ok?;
    assert a.value == b.value + [call(args[i]).value];
  }

  /** The first failing call decides the collected outcome. */
  lemma TryCollectStops<A, T, E>(args: seq<A>, call: A -> Result<T, E>, i: nat)
    requires i < |args| && TryCollect(args[..i], call).Ok? && call(args[i]).Err?
    ensures TryCollect(args, call) == Err(call(args[i]).error)
  {
    var r := TryCollect(args, call);
    assert forall j :: 0 <= j < i ==> call(args[j]).Ok? by {
      forall j | 0 <= j < i ensures call(args[j]).Ok? {
        assert args[..i][j] == args[j];
      }
    }
    var k :| 0 <= k < |args| && call(args[k]) == Err(r.error) && forall j :: 0 <= j < k ==> call(args[j]).Ok?;
    assert !(k < i) && !(i < k);
  }
}
