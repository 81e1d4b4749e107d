/** The gateway's pattern scan: entries sorted longest value first, exact before prefix, first match wins. */
module FirstMatch {
  import opened Prelude
  import opened Patterns

  datatype Entry = Entry(slot: string, kind: Kind, value: string, ns: string, worker: string, version: string)

  predicate StartsWith(s: string, prefix: string) {
    |prefix| <= |s| && s[..|prefix|] == prefix
  }

  predicate Matches(e: Entry, pathname: string, search: string) {
    if e.kind == Exact then pathname == e.value && search == "" else StartsWith(pathname, e.value)
  }

  /** The comparator: `a` may stand before `b`. */
  predicate Before(a: Entry, b: Entry) {
    |a.value| > |b.value| || (|a.value| == |b.value| && (a.kind == Exact || b.kind == Prefix))
  }

  /** `a` is strictly preferred to `b`. */
  predicate Better(a: Entry, b: Entry) {
    |a.value| > |b.value| || (|a.value| == |b.value| && a.kind == Exact && b.kind == Prefix)
  }

  predicate Sorted(es: seq<Entry>) {
    forall i, j :: 0 <= i < j < |es| ==> Before(es[i], es[j])
  }

  /** Hash fields are distinct, and each came from a parsed pattern. */
  predicate FromSlots(es: seq<Entry>) {
    && (forall i :: 0 <= i < |es| ==> SlotOk(es[i].kind, es[i].value, es[i].slot))
    && (forall i, j :: 0 <= i < j < |es| ==> es[i].slot != es[j].slot)
  }

  /** The unique best match. */
  predicate IsBest(es: seq<Entry>, best: Entry, pathname: string, search: string) {
    && best in es && Matches(best, pathname, search)
    && (forall e :: e in es && e != best && Matches(e, pathname, search) ==> Better(best, e))
  }

  /** Two entries that match the same request are never tied. */
  lemma NoTies(a: Entry, b: Entry, pathname: string, search: string)
    requires Matches(a, pathname, search) && Matches(b, pathname, search)
    requires SlotOk(a.kind, a.value, a.slot) && SlotOk(b.kind, b.value, b.slot) && a.slot != b.slot
    ensures Better(a, b) || Better(b, a)
  {
    if |a.value| == |b.value| {
      assert a.value == b.value by {
        if a.kind == Prefix { assert a.value == pathname[..|a.value|]; }
        if b.kind == Prefix { assert b.value == pathname[..|b.value|]; }
        assert pathname[..|pathname|] == pathname;
      }
    }
  }

  /** The scan: the first entry that matches. */
  function FirstOf(es: seq<Entry>, pathname: string, search: string): Option<Entry> {
    if es == [] then None
    else if Matches(es[0], pathname, search) then Some(es[0])
    else FirstOf(es[1..], pathname, search)
  }

  lemma {:induction false} FirstAt(es: seq<Entry>, i: nat, pathname: string, search: string)
    requires i <= |es| && forall j :: 0 <= j < i ==> !Matches(es[j], pathname, search)
    ensures FirstOf(es, pathname, search) == FirstOf(es[i..], pathname, search)
  {
    if i > 0 {
      FirstAt(es[1..], i - 1, pathname, search);
      assert es[1..][i - 1..] == es[i..];
    } else {
      assert es[i..] == es;
    }
  }

  /** matchPatternWithStats: the first matching entry of a sorted list is the unique best match, and nothing
      is returned exactly when nothing matches. */
  method MatchPattern(sorted: seq<Entry>, pathname: string, search: string)
    returns (found: Option<Entry>, comparisons: nat)
    requires Sorted(sorted) && FromSlots(sorted)
    ensures found == FirstOf(sorted, pathname, search)
    ensures found.Some? ==> IsBest(sorted, found.value, pathname, search)
    ensures found.Some? ==> 1 <= comparisons <= |sorted| && sorted[comparisons - 1] == found.value
    ensures found.None? <==> forall e :: e in sorted ==> !Matches(e, pathname, search)
    ensures found.None? ==> comparisons == |sorted|
  {
    comparisons := 0;
    for i := 0 to |sorted|
      invariant comparisons == i
      invariant forall j :: 0 <= j < i ==> !Matches(sorted[j], pathname, search)
    {
      comparisons := comparisons + 1;
      if Matches(sorted[i], pathname, search) {
        FirstIsBest(sorted, i, pathname, search);
        FirstAt(sorted, i, pathname, search);
        return Some(sorted[i]), comparisons;
      }
    }
    FirstAt(sorted, |sorted|, pathname, search);
    found := None;
  }

  lemma FirstIsBest(sorted: seq<Entry>, i: nat, pathname: string, search: string)
    requires Sorted(sorted) && FromSlots(sorted) && i < |sorted| && Matches(sorted[i], pathname, search)
    requires forall j :: 0 <= j < i ==> !Matches(sorted[j], pathname, search)
    ensures IsBest(sorted, sorted[i], pathname, search)
  {
    forall e | e in sorted && e != sorted[i] && Matches(e, pathname, search) ensures Better(sorted[i], e) {
      var j :| 0 <= j < |sorted| && sorted[j] == e;
      assert i < j;
      NoTies(sorted[i], e, pathname, search);
    }
  }

  /** At most one entry is best. */
  lemma BestIsUnique(es: seq<Entry>, a: Entry, b: Entry, pathname: string, search: string)
    requires IsBest(es, a, pathname, search) && IsBest(es, b, pathname, search)
    ensures a == b
  {
  }

  // ---- Sorting ----

  datatype Record = Record(kind: Kind, value: string, ns: string, worker: string, version: string)

  /** A hash field; a value of the wrong shape decodes to None. */
  datatype Field = Field(slot: string, record: Option<Record>)

  /** sortPatterns' filter: malformed values and foreign namespaces are dropped and reported. */
  predicate Usable(f: Field, validNs: string -> bool) {
    f.record.Some? && validNs(f.record.value.ns)
  }

  function ToEntry(f: Field): Entry
    requires f.record.Some?
  {
    var r := f.record.value;
    Entry(f.slot, r.kind, r.value, r.ns, r.worker, r.version)
  }

  function Kept(fields: seq<Field>, validNs: string -> bool): seq<Entry> {
    if fields == [] then []
    else
      var rest := Kept(fields[..|fields| - 1], validNs);
      if Usable(Last(fields), validNs) then rest + [ToEntry(Last(fields))] else rest
  }

  /** Place an entry after everything it does not strictly precede, as a stable sort does. */
  function Insert(es: seq<Entry>, e: Entry): seq<Entry> {
    if es == [] then [e]
    else if Before(Last(es), e) then es + [e]
    else Insert(es[..|es| - 1], e) + [Last(es)]
  }

  lemma {:induction false} InsertedMembers(es: seq<Entry>, e: Entry)
    ensures multiset(Insert(es, e)) == multiset(es) + multiset{e} && |Insert(es, e)| == |es| + 1
  {
    if es != [] && !Before(Last(es), e) {
      var n := |es| - 1;
      InsertedMembers(es[..n], e);
      assert es == es[..n] + [es[n]];
    }
  }

  lemma AppendSorted(es: seq<Entry>, e: Entry)
    requires Sorted(es) && (es != [] ==> Before(Last(es), e))
    ensures Sorted(es + [e])
  {
    var n := |es| - 1;
    forall i | 0 <= i < n ensures Before(es[i], e) { assert Before(es[i], es[n]); }
  }

  lemma {:induction false} InsertedSorted(es: seq<Entry>, e: Entry)
    requires Sorted(es)
    ensures Sorted(Insert(es, e)) && Last(Insert(es, e)) == if es == [] || Before(Last(es), e) then e else Last(es)
  {
    if es == [] {
    } else if Before(Last(es), e) {
      AppendSorted(es, e);
    } else {
      var n := |es| - 1;
      InsertedSorted(es[..n], e);
      InsertedMembers(es[..n], e);
      assert n > 0 ==> Before(es[n - 1], es[n]) && es[..n][n - 1] == es[n - 1];
      AppendSorted(Insert(es[..n], e), es[n]);
    }
  }

  method KeepUsable(fields: seq<Field>, validNs: string -> bool) returns (kept: seq<Entry>, errors: seq<string>)
    ensures kept == Kept(fields, validNs) && |kept| + |errors| == |fields|
  {
    kept, errors := [], [];
    for i := 0 to |fields|
      invariant kept == Kept(fields[..i], validNs) && |kept| + |errors| == i
    {
      assert fields[..i + 1][..i] == fields[..i];
      if Usable(fields[i], validNs) {
        kept := kept + [ToEntry(fields[i])];
      } else {
        errors := errors + [fields[i].slot];
      }
    }
    assert fields[..|fields|] == fields;
  }

  function SortOf(es: seq<Entry>): seq<Entry> {
    if es == [] then [] else Insert(SortOf(es[..|es| - 1]), Last(es))
  }

  lemma LastMember(es: seq<Entry>)
    requires es != []
    ensures multiset(es) == multiset(es[..|es| - 1]) + multiset{Last(es)}
  {
    assert es == es[..|es| - 1] + [Last(es)];
  }

  lemma {:induction false} SortOfMembers(es: seq<Entry>)
    ensures multiset(SortOf(es)) == multiset(es)
  {
    if es != [] {
      SortOfMembers(es[..|es| - 1]);
      InsertedMembers(SortOf(es[..|es| - 1]), Last(es));
      LastMember(es);
    }
  }

  lemma {:induction false} SortOfSorts(es: seq<Entry>)
    ensures Sorted(SortOf(es))
  {
    if es != [] {
      SortOfSorts(es[..|es| - 1]);
      InsertedSorted(SortOf(es[..|es| - 1]), Last(es));
    }
  }

  method ToSorted(es: seq<Entry>) returns (sorted: seq<Entry>)
    ensures sorted == SortOf(es) && Sorted(sorted) && multiset(sorted) == multiset(es)
  {
    sorted := [];
    for i := 0 to |es|
      invariant sorted == SortOf(es[..i])
    {
      assert es[..i + 1][..i] == es[..i];
      sorted := Insert(sorted, es[i]);
    }
    assert es[..|es|] == es;
    SortOfSorts(es);
    SortOfMembers(es);
  }

  // ---- From hash fields to the match ----

  /** Hash fields are distinct, and a usable one holds the pattern its name was built from. */
  predicate FieldsOk(fields: seq<Field>, validNs: string -> bool) {
    && (forall i, j :: 0 <= i < j < |fields| ==> fields[i].slot != fields[j].slot)
    && (forall f :: f in fields && Usable(f, validNs) ==> SlotOk(f.record.value.kind, f.record.value.value, f.slot))
  }

  lemma {:induction false} KeptSlots(fields: seq<Field>, validNs: string -> bool)
    ensures forall e :: e in Kept(fields, validNs) ==> exists f :: f in fields && Usable(f, validNs) && ToEntry(f) == e
  {
    if fields != [] {
      var n := |fields| - 1;
      KeptSlots(fields[..n], validNs);
      assert fields == fields[..n] + [fields[n]];
    }
  }

  /** What the filter keeps of a hash has distinct, well-formed slots. */
  lemma {:induction false} KeptFromSlots(fields: seq<Field>, validNs: string -> bool)
    requires FieldsOk(fields, validNs)
    ensures FromSlots(Kept(fields, validNs))
  {
    if fields != [] {
      var n := |fields| - 1;
      var init := fields[..n];
      assert fields == init + [fields[n]];
      KeptFromSlots(init, validNs);
      KeptSlots(init, validNs);
      forall e | e in Kept(init, validNs) ensures e.slot != fields[n].slot {
        var f :| f in init && Usable(f, validNs) && ToEntry(f) == e;
        var i :| 0 <= i < n && init[i] == f;
      }
    }
  }

  lemma {:induction false} Twice<T>(s: seq<T>, x: T)
    requires multiset(s)[x] >= 2
    ensures exists i, j :: 0 <= i < j < |s| && s[i] == x && s[j] == x
  {
    var n := |s| - 1;
    assert s == s[..n] + [s[n]];
    if s[n] == x {
      assert x in multiset(s[..n]);
      var i :| 0 <= i < n && s[i] == x;
    } else {
      Twice(s[..n], x);
    }
  }

  lemma Repeated<T>(s: seq<T>, i: nat, j: nat)
    requires i < j < |s| && s[i] == s[j]
    ensures multiset(s)[s[i]] >= 2
  {
    assert s == s[..j] + s[j..] && s[i] in multiset(s[..j]) && s[j..][0] == s[i];
    assert s[i] in multiset(s[j..]);
  }

  /** Distinct well-formed slots survive any rearrangement. */
  lemma FromSlotsPermuted(a: seq<Entry>, b: seq<Entry>)
    requires FromSlots(a) && multiset(a) == multiset(b)
    ensures FromSlots(b)
  {
    forall i | 0 <= i < |b| ensures b[i] in a { SameMembers(a, b, b[i]); }
    forall i, j | 0 <= i < j < |b| ensures b[i].slot != b[j].slot {
      if b[i] == b[j] {
        Repeated(b, i, j);
        Twice(a, b[i]);
        assert false;
      }
    }
  }

  lemma {:induction false} KeptAppend(a: seq<Field>, b: seq<Field>, validNs: string -> bool)
    ensures Kept(a + b, validNs) == Kept(a, validNs) + Kept(b, validNs)
  {
    if b == [] {
      assert a + b == a;
    } else {
      var n := |b| - 1;
      assert (a + b)[..|a + b| - 1] == a + b[..n];
      KeptAppend(a, b[..n], validNs);
    }
  }

  lemma Together<T>(a: seq<T>, b: seq<T>)
    ensures multiset(a + b) == multiset(a) + multiset(b)
  {
  }

  lemma WithoutOne<T>(init: seq<T>, l: seq<T>, x: T, r: seq<T>)
    requires multiset(init + [x]) == multiset(l + ([x] + r))
    ensures multiset(init) == multiset(l + r)
  {
    Together(l, [x] + r);
    Together([x], r);
    Together(init, [x]);
    Together(l, r);
    assert multiset(init) == multiset(init + [x]) - multiset{x};
  }

  /** The filter keeps the same entries whatever order the fields come in. */
  lemma {:induction false} KeptPermuted(a: seq<Field>, b: seq<Field>, validNs: string -> bool)
    requires multiset(a) == multiset(b)
    ensures multiset(Kept(a, validNs)) == multiset(Kept(b, validNs))
    decreases |a|
  {
    if a == [] {
      assert |b| == |multiset(b)| == 0;
    } else {
      var n := |a| - 1;
      var x := a[n];
      assert a == a[..n] + [x] && x in multiset(a);
      var k :| 0 <= k < |b| && b[k] == x;
      var l, r := b[..k], b[k + 1..];
      assert b == l + ([x] + r);
      WithoutOne(a[..n], l, x, r);
      KeptPermuted(a[..n], l + r, validNs);
      KeptAppend(a[..n], [x], validNs);
      KeptSplit(l, x, r, validNs);
    }
  }

  lemma KeptSplit(l: seq<Field>, x: Field, r: seq<Field>, validNs: string -> bool)
    ensures multiset(Kept(l + ([x] + r), validNs)) == multiset(Kept(l + r, validNs)) + multiset(Kept([x], validNs))
  {
    KeptAppend(l, [x] + r, validNs);
    KeptAppend([x], r, validNs);
    KeptAppend(l, r, validNs);
  }

  /** sortPatterns: the usable fields, in match order, with one report for every other field. What it returns
      for a hash is what the scan needs. */
  method SortPatterns(fields: seq<Field>, validNs: string -> bool) returns (sorted: seq<Entry>, errors: seq<string>)
    ensures sorted == SortOf(Kept(fields, validNs))
    ensures Sorted(sorted) && multiset(sorted) == multiset(Kept(fields, validNs))
    ensures FieldsOk(fields, validNs) ==> FromSlots(sorted)
    ensures |Kept(fields, validNs)| + |errors| == |fields|
  {
    var kept, dropped := KeepUsable(fields, validNs);
    sorted := ToSorted(kept);
    errors := dropped;
    if FieldsOk(fields, validNs) {
      KeptFromSlots(fields, validNs);
      FromSlotsPermuted(kept, sorted);
    }
  }

  lemma SameMembers(a: seq<Entry>, b: seq<Entry>, e: Entry)
    requires multiset(a) == multiset(b)
    ensures e in a <==> e in b
  {
    assert e in a <==> e in multiset(a);
    assert e in b <==> e in multiset(b);
  }

  /** Sort, then scan: the gateway's answer for the hash of one host. */
  function Resolve(fields: seq<Field>, validNs: string -> bool, pathname: string, search: string): Option<Entry> {
    FirstOf(SortOf(Kept(fields, validNs)), pathname, search)
  }

  /** The request's route: the best of the usable fields, and none exactly when no usable field matches. */
  method ResolvePattern(fields: seq<Field>, validNs: string -> bool, pathname: string, search: string)
    returns (found: Option<Entry>, errors: seq<string>)
    requires FieldsOk(fields, validNs)
    ensures found == Resolve(fields, validNs, pathname, search)
    ensures found.Some? ==> IsBest(Kept(fields, validNs), found.value, pathname, search)
    ensures found.None? <==> forall e :: e in Kept(fields, validNs) ==> !Matches(e, pathname, search)
  {
    var sorted;
    sorted, errors := SortPatterns(fields, validNs);
    var comparisons;
    found, comparisons := MatchPattern(sorted, pathname, search);
    forall e ensures e in sorted <==> e in Kept(fields, validNs) { SameMembers(sorted, Kept(fields, validNs), e); }
  }

  lemma {:induction false} FirstIsFound(es: seq<Entry>, pathname: string, search: string)
    ensures FirstOf(es, pathname, search).None? <==> forall e :: e in es ==> !Matches(e, pathname, search)
    ensures FirstOf(es, pathname, search).Some? ==> exists i ::
      && 0 <= i < |es| && FirstOf(es, pathname, search) == Some(es[i]) && Matches(es[i], pathname, search)
      && forall j :: 0 <= j < i ==> !Matches(es[j], pathname, search)
  {
    if es != [] && !Matches(es[0], pathname, search) {
      FirstIsFound(es[1..], pathname, search);
      assert es == [es[0]] + es[1..];
      if FirstOf(es, pathname, search).Some? {
        var i :|
          && 0 <= i < |es[1..]| && FirstOf(es[1..], pathname, search) == Some(es[1..][i])
          && Matches(es[1..][i], pathname, search)
          && forall j :: 0 <= j < i ==> !Matches(es[1..][j], pathname, search);
        assert es[i + 1] == es[1..][i];
        assert forall j :: 0 < j < i + 1 ==> es[j] == es[1..][j - 1];
      }
    }
  }

  /** The scan of any sorted arrangement of the same entries finds the same one. */
  lemma SortedScansAgree(a: seq<Entry>, b: seq<Entry>, pathname: string, search: string)
    requires Sorted(a) && Sorted(b) && FromSlots(a) && multiset(a) == multiset(b)
    ensures FirstOf(a, pathname, search) == FirstOf(b, pathname, search)
  {
    FromSlotsPermuted(a, b);
    FirstIsFound(a, pathname, search);
    FirstIsFound(b, pathname, search);
    forall e ensures e in a <==> e in b { SameMembers(a, b, e); }
    if FirstOf(a, pathname, search).Some? {
      var i :| 0 <= i < |a| && FirstOf(a, pathname, search) == Some(a[i]) && Matches(a[i], pathname, search)
        && forall j :: 0 <= j < i ==> !Matches(a[j], pathname, search);
      var k :| 0 <= k < |b| && FirstOf(b, pathname, search) == Some(b[k]) && Matches(b[k], pathname, search)
        && forall j :: 0 <= j < k ==> !Matches(b[j], pathname, search);
      FirstIsBest(a, i, pathname, search);
      FirstIsBest(b, k, pathname, search);
      assert IsBest(a, b[k], pathname, search);
      BestIsUnique(a, a[i], b[k], pathname, search);
    }
  }

  /** First match is best match whatever order the hash fields come in: filtering, sorting and scanning any
      rearrangement of the fields gives the same answer. */
  lemma FieldOrderIsIrrelevant(a: seq<Field>, b: seq<Field>, validNs: string -> bool, pathname: string, search: string)
    requires FieldsOk(a, validNs) && multiset(a) == multiset(b)
    ensures Resolve(a, validNs, pathname, search) == Resolve(b, validNs, pathname, search)
  {
    var ka, kb := Kept(a, validNs), Kept(b, validNs);
    KeptFromSlots(a, validNs);
    KeptPermuted(a, b, validNs);
    SortOfSorts(ka);
    SortOfSorts(kb);
    SortOfMembers(ka);
    SortOfMembers(kb);
    FromSlotsPermuted(ka, SortOf(ka));
    SortedScansAgree(SortOf(ka), SortOf(kb), pathname, search);
  }

  /** The best of the earlier entries against one more. */
  lemma ExtendBest(es: seq<Entry>, best: Entry, e: Entry, pathname: string, search: string)
    requires FromSlots(es + [e]) && IsBest(es, best, pathname, search)
    ensures var next := if Matches(e, pathname, search) && Better(e, best) then e else best;
      IsBest(es + [e], next, pathname, search)
  {
    var i :| 0 <= i < |es| && es[i] == best;
    var all := es + [e];
    assert all[i].slot != all[|es|].slot;
    if Matches(e, pathname, search) { NoTies(best, e, pathname, search); }
  }

  /** When something matches, the scan's answer exists: the best match of a list with distinct slots. */
  lemma {:induction false} BestExists(es: seq<Entry>, pathname: string, search: string) returns (best: Entry)
    requires FromSlots(es) && exists e :: e in es && Matches(e, pathname, search)
    ensures IsBest(es, best, pathname, search)
  {
    var n := |es| - 1;
    var init := es[..n];
    assert es == init + [es[n]];
    if exists e :: e in init && Matches(e, pathname, search) {
      best := BestExists(init, pathname, search);
      ExtendBest(init, best, es[n], pathname, search);
      best := if Matches(es[n], pathname, search) && Better(es[n], best) then es[n] else best;
    } else {
      best := es[n];
    }
  }
}
