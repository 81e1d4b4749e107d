/** A JavaScript Map as its insertion-ordered pairs, oldest first. */
module OrderedMap {
  import opened Prelude

  function Find<V>(m: seq<(string, V)>, key: string): Option<V> {
    if m == [] then None
    else if m[0].0 == key then Some(m[0].1)
    else Find(m[1..], key)
  }

  function Remove<V>(m: seq<(string, V)>, key: string): seq<(string, V)> {
    if m == [] then []
    else if m[0].0 == key then m[1..]
    else [m[0]] + Remove(m[1..], key)
  }

  function Sum<V>(m: seq<(string, V)>, weight: V -> int): int {
    if m == [] then 0 else weight(m[0].1) + Sum(m[1..], weight)
  }

  ghost predicate Distinct<V>(m: seq<(string, V)>) {
    forall i, j :: 0 <= i < j < |m| ==> m[i].0 != m[j].0
  }

  /** Every pair of `a` is a pair of `b`. */
  ghost predicate Within<V>(a: seq<(string, V)>, b: seq<(string, V)>) {
    forall i :: 0 <= i < |a| ==> a[i] in b
  }

  /** Index of the pair under `key`, or the length. */
  lemma PassesOver<V>(m: seq<(string, V)>, key: string, i: nat)
    requires i < |m| && m[i].0 != key
    ensures Find(m[i..], key) == Find(m[i + 1..], key)
    ensures m[..i] + Remove(m[i..], key) == m[..i + 1] + Remove(m[i + 1..], key)
  {
    assert m[i..][1..] == m[i + 1..];
    assert m[..i + 1] == m[..i] + [m[i]];
  }

  lemma StopsAt<V>(m: seq<(string, V)>, key: string, i: nat)
    requires i <= |m| && (i < |m| ==> m[i].0 == key)
    ensures Find(m[i..], key) == if i < |m| then Some(m[i].1) else None
    ensures i < |m| ==> Remove(m[i..], key) == m[i + 1..]
  {
    if i < |m| { assert m[i..][1..] == m[i + 1..]; }
  }

  method Locate<V>(m: seq<(string, V)>, key: string) returns (index: nat)
    ensures index <= |m|
    ensures index == |m| <==> Find(m, key).None?
    ensures index < |m| ==> m[index].0 == key && Find(m, key) == Some(m[index].1)
    ensures index < |m| ==> Remove(m, key) == m[..index] + m[index + 1..]
  {
    hide Find, Remove;
    index := 0;
    assert m[0..] == m;
    while index < |m| && m[index].0 != key
      invariant index <= |m|
      invariant Find(m, key) == Find(m[index..], key)
      invariant Remove(m, key) == m[..index] + Remove(m[index..], key)
    {
      PassesOver(m, key, index);
      index := index + 1;
    }
    StopsAt(m, key, index);
  }

  lemma {:induction false} SumAppend<V>(a: seq<(string, V)>, b: seq<(string, V)>, weight: V -> int)
    ensures Sum(a + b, weight) == Sum(a, weight) + Sum(b, weight)
  {
    if a == [] {
      assert a + b == b;
    } else {
      assert (a + b)[1..] == a[1..] + b;
      SumAppend(a[1..], b, weight);
    }
  }

  lemma SumOne<V>(p: (string, V), weight: V -> int)
    ensures Sum([p], weight) == weight(p.1)
  {
    assert [p][1..] == [];
  }

  lemma {:induction false} FindIs<V>(m: seq<(string, V)>, key: string)
    ensures Find(m, key).Some? ==> (key, Find(m, key).value) in m
    ensures Find(m, key).None? ==> forall i :: 0 <= i < |m| ==> m[i].0 != key
  {
    if m != [] && m[0].0 != key { FindIs(m[1..], key); }
  }

  lemma {:induction false} FindUnique<V>(m: seq<(string, V)>, key: string, i: nat)
    requires Distinct(m) && i < |m| && m[i].0 == key
    ensures Find(m, key) == Some(m[i].1)
  {
    if i > 0 { FindUnique(m[1..], key, i - 1); }
  }

  lemma {:induction false} RemovedSum<V>(m: seq<(string, V)>, key: string, weight: V -> int)
    ensures Find(m, key).None? ==> Remove(m, key) == m
    ensures Find(m, key).Some? ==> Sum(Remove(m, key), weight) == Sum(m, weight) - weight(Find(m, key).value)
    ensures |Remove(m, key)| == |m| - (if Find(m, key).Some? then 1 else 0)
  {
    if m != [] && m[0].0 != key {
      RemovedSum(m[1..], key, weight);
      assert Remove(m, key)[1..] == Remove(m[1..], key);
    }
  }

  lemma {:induction false} RemovedAt<V>(m: seq<(string, V)>, key: string) returns (k: nat)
    requires Find(m, key).Some?
    ensures k < |m| && m[k].0 == key && Remove(m, key) == m[..k] + m[k + 1..]
  {
    if m[0].0 == key {
      k := 0;
    } else {
      var k' := RemovedAt(m[1..], key);
      k := k' + 1;
      assert m[1..][..k'] == m[1..k] && m[1..][k' + 1..] == m[k + 1..];
      assert [m[0]] + m[1..k] == m[..k];
    }
  }

  lemma RemovedWithin<V>(m: seq<(string, V)>, key: string)
    requires Distinct(m)
    ensures Distinct(Remove(m, key)) && Within(Remove(m, key), m)
    ensures forall i :: 0 <= i < |Remove(m, key)| ==> Remove(m, key)[i].0 != key
  {
    hide Find, Remove;
    FindIs(m, key);
    if Find(m, key).Some? {
      var k := RemovedAt(m, key);
      var r := Remove(m, key);
      assert forall i :: 0 <= i < |r| ==> r[i] == if i < k then m[i] else m[i + 1];
    } else {
      RemovedSum(m, key, _ => 0);
    }
  }

  /** Removing a key and appending it again keeps keys distinct. */
  lemma ReplacedLast<V>(m: seq<(string, V)>, key: string, v: V, weight: V -> int)
    requires Distinct(m)
    ensures var r := Remove(m, key) + [(key, v)];
      && Distinct(r) && Find(r, key) == Some(v) && Last(r) == (key, v)
      && Sum(r, weight) == Sum(m, weight) + weight(v) - (if Find(m, key).Some? then weight(Find(m, key).value) else 0)
      && |r| == |m| + (if Find(m, key).Some? then 0 else 1)
      && (forall i :: 0 <= i < |r| ==> r[i] in m || r[i] == (key, v))
  {
    var r := Remove(m, key) + [(key, v)];
    RemovedWithin(m, key);
    RemovedSum(m, key, weight);
    SumAppend(Remove(m, key), [(key, v)], weight);
    SumOne((key, v), weight);
    FindUnique(r, key, |r| - 1);
  }

  /** Overwriting a key leaves its place. */
  function Put<V>(m: seq<(string, V)>, key: string, v: V): seq<(string, V)> {
    if m == [] then []
    else if m[0].0 == key then [(key, v)] + m[1..]
    else [m[0]] + Put(m[1..], key, v)
  }

  lemma {:induction false} PutAt<V>(m: seq<(string, V)>, key: string, v: V) returns (k: nat)
    requires Find(m, key).Some?
    ensures k < |m| && m[k] == (key, Find(m, key).value) && Put(m, key, v) == m[k := (key, v)]
  {
    if m[0].0 == key {
      k := 0;
    } else {
      var k' := PutAt(m[1..], key, v);
      k := k' + 1;
    }
  }

  lemma {:induction false} PutSum<V>(m: seq<(string, V)>, key: string, v: V, weight: V -> int)
    requires Find(m, key).Some?
    ensures Sum(Put(m, key, v), weight) == Sum(m, weight) + weight(v) - weight(Find(m, key).value)
  {
    if m[0].0 == key {
      assert Put(m, key, v)[1..] == m[1..];
    } else {
      PutSum(m[1..], key, v, weight);
      assert Put(m, key, v)[1..] == Put(m[1..], key, v);
    }
  }

  // ---- Looking a key up after a change ----

  lemma {:induction false} FindRemoved<V>(m: seq<(string, V)>, key: string, k: string)
    requires k != key
    ensures Find(Remove(m, key), k) == Find(m, k)
  {
    if m != [] && m[0].0 != key {
      FindRemoved(m[1..], key, k);
      assert Remove(m, key)[1..] == Remove(m[1..], key);
    }
  }

  lemma {:induction false} FindPut<V>(m: seq<(string, V)>, key: string, v: V, k: string)
    ensures Find(Put(m, key, v), k) == if k == key && Find(m, key).Some? then Some(v) else Find(m, k)
  {
    if m != [] {
      if m[0].0 == key {
        assert Put(m, key, v)[1..] == m[1..];
      } else {
        FindPut(m[1..], key, v, k);
        assert Put(m, key, v)[1..] == Put(m[1..], key, v);
      }
    }
  }

  lemma {:induction false} FindAppended<V>(m: seq<(string, V)>, key: string, v: V, k: string)
    ensures Find(m + [(key, v)], k) ==
              if Find(m, k).Some? then Find(m, k) else if k == key then Some(v) else None
  {
    if m == [] {
      assert (m + [(key, v)])[1..] == [];
    } else {
      assert (m + [(key, v)])[1..] == m[1..] + [(key, v)];
      FindAppended(m[1..], key, v, k);
    }
  }

  lemma FindWithin<V>(a: seq<(string, V)>, b: seq<(string, V)>, k: string)
    requires Within(a, b) && Distinct(b)
    ensures Find(a, k).Some? ==> Find(b, k) == Find(a, k)
  {
    if Find(a, k).Some? {
      FindIs(a, k);
      var i :| 0 <= i < |a| && a[i] == (k, Find(a, k).value);
      var j :| 0 <= j < |b| && b[j] == a[i];
      FindUnique(b, k, j);
    }
  }
}
