/** Small shared vocabulary. */
module Prelude {

  datatype Option<+T> = None | Some(value: T)

  function Last<T>(s: seq<T>): T
    requires s != []
  {
    s[|s| - 1]
  }

  const MAX_SAFE_INTEGER: nat := 9007199254740991

  lemma {:induction false} SubsetSize<T>(a: set<T>, b: set<T>)
    requires a <= b
    ensures |a| <= |b|
  {
    if a != {} {
      var x :| x in a;
      SubsetSize(a - {x}, b - {x});
    }
  }

  /** A number above all those taken. */
  lemma {:induction false} FreshNumber(taken: set<nat>) returns (n: nat)
    ensures forall x :: x in taken ==> x < n
  {
    if taken == {} {
      n := 0;
    } else {
      var x :| x in taken;
      var rest := FreshNumber(taken - {x});
      n := if x < rest then rest else x + 1;
      assert forall y :: y in taken ==> y == x || y in taken - {x};
    }
  }

  /** Both maps say the same of the key. */
  ghost predicate Agree<K, V>(a: map<K, V>, b: map<K, V>, k: K) {
    (k in a <==> k in b) && (k in a ==> a[k] == b[k])
  }

  /** `a` with what `b` says of the key. */
  function CopyKey<K, V>(a: map<K, V>, b: map<K, V>, k: K): map<K, V> {
    if k in b then a[k := b[k]] else a - {k}
  }
}
