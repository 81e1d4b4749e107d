/** One worker's cron projection: the hash of live crons, and the sequence key that outlives it. A cron's
    `id` is the short hash of its expression and timezone. Promote and Bump are the part of those transactions that
    touches these keys: they are written by the EXEC of the promote and bump sessions that SessionTheorems shows to
    take effect one after another. */
module Crons {
  import opened Prelude
  import opened OrderedMap

  const CRON_GENERATION_EPOCH: nat := 1024

  datatype Spec = Spec(id: string, cron: string, timezone: string)

  datatype Entry = Entry(cron: string, timezone: string, gen: nat)

  /** `issued` lists every generation ever handed out, in order. */
  datatype State = State(meta: bool, entries: map<string, Entry>, sequence: Option<nat>, issued: seq<nat>)

  datatype Event = Promote(crons: seq<Spec>) | Bump

  /** The promoted list by id: a repeated id keeps its place and takes the later value. */
  function ById(crons: seq<Spec>): seq<(string, Spec)> {
    if crons == [] then []
    else
      var m, c := ById(crons[..|crons| - 1]), Last(crons);
      if Find(m, c.id).Some? then Put(m, c.id, c) else m + [(c.id, c)]
  }

  function Added(prior: map<string, Entry>, byId: seq<(string, Spec)>): seq<Spec> {
    if byId == [] then []
    else
      var rest := Added(prior, byId[..|byId| - 1]);
      if Last(byId).0 in prior then rest else rest + [Last(byId).1]
  }

  function Ids(byId: seq<(string, Spec)>): set<string> {
    set p | p in byId :: p.0
  }

  /** Write the added entries with the generations after `seed`. */
  function Place(entries: map<string, Entry>, added: seq<Spec>, seed: nat): map<string, Entry> {
    if added == [] then entries
    else
      var c := Last(added);
      Place(entries, added[..|added| - 1], seed)[c.id := Entry(c.cron, c.timezone, seed + |added|)]
  }

  function NextEntries(entries: map<string, Entry>, byId: seq<(string, Spec)>, seed: nat): map<string, Entry> {
    Place(entries, Added(entries, byId), seed) - (entries.Keys - Ids(byId))
  }

  function Counted(seed: nat, n: nat): seq<nat> {
    seq(n, i requires 0 <= i => seed + i + 1)
  }

  /** resolveCronSequence; None is a corrupt sequence. */
  function Resolve(meta: bool, sequence: Option<nat>): Option<nat> {
    match sequence
    case Some(n) => if n < CRON_GENERATION_EPOCH - 1 then None else Some(n)
    case None => if meta then None else Some(CRON_GENERATION_EPOCH - 1)
  }

  /** computeCronPlan and stageCronProjection; a refused promote changes nothing. */
  function PromoteStep(s: State, crons: seq<Spec>): State {
    if s.entries == map[] && !s.meta && crons == [] then s
    else if !s.meta && s.entries != map[] then s
    else
      match Resolve(s.meta, s.sequence)
      case None => s
      case Some(seed) =>
        var byId := ById(crons);
        var added := Added(s.entries, byId);
        if seed + |added| > MAX_SAFE_INTEGER then s
        else State(
          crons != [],
          if crons == [] then map[] else NextEntries(s.entries, byId, seed),
          if s.sequence.None? || added != [] then Some(seed + |added|) else s.sequence,
          s.issued + Counted(seed, |added|))
  }

  /** A bump flips the version in `__meta__`, keeps the crons, and seeds a missing sequence. */
  function BumpStep(s: State): State {
    if s.meta && Resolve(s.meta, s.sequence).Some? then s.(sequence := Resolve(s.meta, s.sequence)) else s
  }

  function Step(s: State, e: Event): State {
    match e
    case Promote(crons) => PromoteStep(s, crons)
    case Bump => BumpStep(s)
  }

  function Run(s: State, es: seq<Event>): State
    decreases |es|
  {
    if es == [] then s else Run(Step(s, es[0]), es[1..])
  }

  // ---- The loop that hands out generations ----

  method AllocateGenerations(added: seq<Spec>, seed: nat) returns (cronSeq: nat, placed: seq<(Spec, nat)>, ok: bool)
    requires seed <= MAX_SAFE_INTEGER
    ensures ok <==> seed + |added| <= MAX_SAFE_INTEGER
    ensures ok ==> cronSeq == seed + |added| && |placed| == |added|
    ensures ok ==> forall i :: 0 <= i < |added| ==> placed[i] == (added[i], Counted(seed, |added|)[i])
  {
    cronSeq, placed := seed, [];
    for i := 0 to |added|
      invariant cronSeq == seed + i && cronSeq <= MAX_SAFE_INTEGER && |placed| == i
      invariant forall j :: 0 <= j < i ==> placed[j] == (added[j], seed + j + 1)
    {
      if cronSeq >= MAX_SAFE_INTEGER { return cronSeq, placed, false; }
      cronSeq := cronSeq + 1;
      placed := placed + [(added[i], cronSeq)];
    }
    ok := true;
  }

  // ---- Invariant ----

  predicate Increasing(s: seq<nat>) {
    forall i, j :: 0 <= i < j < |s| ==> s[i] < s[j]
  }

  predicate Ordered(s: State) {
    && Increasing(s.issued)
    && (s.meta <==> s.entries != map[])
    && (s.sequence.None? ==> s.issued == [] && s.entries == map[])
    && (s.sequence.Some? ==>
          && s.sequence.value >= CRON_GENERATION_EPOCH - 1
          && forall i :: 0 <= i < |s.issued| ==> s.issued[i] <= s.sequence.value)
    && (forall k :: k in s.entries ==> s.entries[k].gen in s.issued)
  }

  predicate Keyed(m: seq<(string, Spec)>) {
    forall i :: 0 <= i < |m| ==> m[i].1.id == m[i].0
  }

  /** Setting one id in the ordered map. */
  lemma SetOne(m: seq<(string, Spec)>, c: Spec)
    requires Distinct(m) && Keyed(m)
    ensures var t := if Find(m, c.id).Some? then Put(m, c.id, c) else m + [(c.id, c)];
      Distinct(t) && Keyed(t) && t != [] && Ids(t) == Ids(m) + {c.id}
  {
    FindIs(m, c.id);
    if Find(m, c.id).Some? {
      var k := PutAt(m, c.id, c);
      var t := Put(m, c.id, c);
      assert t == m[k := (c.id, c)];
      forall p | p in m ensures p.0 in Ids(t) {
        var j :| 0 <= j < |m| && m[j] == p;
        assert t[j].0 == p.0 && t[j] in t;
      }
      assert t[k] in t;
    } else {
      assert Ids(m + [(c.id, c)]) == Ids(m) + {c.id};
    }
  }

  function IdsOf(crons: seq<Spec>): set<string> {
    set c | c in crons :: c.id
  }

  lemma IdsOfLast(crons: seq<Spec>)
    requires crons != []
    ensures IdsOf(crons) == IdsOf(crons[..|crons| - 1]) + {Last(crons).id}
  {
    assert crons == crons[..|crons| - 1] + [Last(crons)];
  }

  lemma {:induction false} ByIdDistinct(crons: seq<Spec>)
    ensures Distinct(ById(crons)) && Keyed(ById(crons)) && Ids(ById(crons)) == IdsOf(crons)
    ensures crons != [] ==> ById(crons) != []
  {
    if crons != [] {
      var n := |crons| - 1;
      ByIdDistinct(crons[..n]);
      SetOne(ById(crons[..n]), crons[n]);
      IdsOfLast(crons);
    }
  }

  lemma {:induction false} AddedAre(prior: map<string, Entry>, byId: seq<(string, Spec)>)
    requires Distinct(byId) && forall i :: 0 <= i < |byId| ==> byId[i].1.id == byId[i].0
    ensures var added := Added(prior, byId);
      && (forall i, j :: 0 <= i < j < |added| ==> added[i].id != added[j].id)
      && (forall i :: 0 <= i < |added| ==> added[i].id !in prior && (added[i].id, added[i]) in byId)
      && (forall i :: 0 <= i < |byId| && byId[i].0 !in prior ==> byId[i].1 in added)
  {
    if byId != [] {
      var n := |byId| - 1;
      AddedAre(prior, byId[..n]);
      assert byId == byId[..n] + [byId[n]];
      var rest := Added(prior, byId[..n]);
      forall i | 0 <= i < |rest| ensures rest[i].id != byId[n].0 {
        assert (rest[i].id, rest[i]) in byId[..n];
      }
    }
  }

  predicate DistinctIds(added: seq<Spec>) {
    forall i, j :: 0 <= i < j < |added| ==> added[i].id != added[j].id
  }

  lemma {:induction false} PlacedElsewhere(entries: map<string, Entry>, added: seq<Spec>, seed: nat, k: string)
    ensures k in Place(entries, added, seed) <==> k in entries || exists i :: 0 <= i < |added| && added[i].id == k
    ensures k in entries && (forall i :: 0 <= i < |added| ==> added[i].id != k) ==>
              Place(entries, added, seed)[k] == entries[k]
  {
    if added != [] {
      var n := |added| - 1;
      PlacedElsewhere(entries, added[..n], seed, k);
      assert forall i :: 0 <= i < n ==> added[..n][i] == added[i];
    }
  }

  lemma {:induction false} PlacedAt(entries: map<string, Entry>, added: seq<Spec>, seed: nat, i: nat)
    requires DistinctIds(added) && i < |added|
    ensures added[i].id in Place(entries, added, seed)
    ensures Place(entries, added, seed)[added[i].id].gen == seed + i + 1
  {
    var n := |added| - 1;
    if i < n {
      assert added[..n][i] == added[i];
      PlacedAt(entries, added[..n], seed, i);
    }
  }

  /** The hash after a promote: exactly the promoted ids, old entries kept, new ones numbered. */
  lemma EntriesAfter(entries: map<string, Entry>, crons: seq<Spec>, seed: nat, k: string)
    ensures var byId := ById(crons);
      var after := NextEntries(entries, byId, seed);
      && (k in after <==> k in Ids(byId))
      && (k in after && k in entries ==> after[k] == entries[k])
      && (k in after && k !in entries ==> seed < after[k].gen <= seed + |Added(entries, byId)|)
  {
    hide Place, ById;
    var byId := ById(crons);
    var added := Added(entries, byId);
    ByIdDistinct(crons);
    AddedAre(entries, byId);
    PlacedElsewhere(entries, added, seed, k);
    if k !in entries && exists i :: 0 <= i < |added| && added[i].id == k {
      var i :| 0 <= i < |added| && added[i].id == k;
      PlacedAt(entries, added, seed, i);
      assert (added[i].id, added[i]) in byId;
    }
    if k in Ids(byId) && k !in entries {
      var i :| 0 <= i < |byId| && byId[i].0 == k;
      assert byId[i].1 in added;
    }
  }

  function Seed(s: State): nat {
    if s.sequence.Some? then s.sequence.value else CRON_GENERATION_EPOCH - 1
  }

  /** Whether the sequence has room for the added crons. */
  predicate Accepted(s: State, crons: seq<Spec>) {
    Seed(s) + |Added(s.entries, ById(crons))| <= MAX_SAFE_INTEGER
  }

  lemma GenerationsAbove(issued: seq<nat>, seed: nat, n: nat)
    requires Increasing(issued) && forall i :: 0 <= i < |issued| ==> issued[i] <= seed
    ensures Increasing(issued + Counted(seed, n))
    ensures forall i :: 0 <= i < |issued + Counted(seed, n)| ==> (issued + Counted(seed, n))[i] <= seed + n
  {
  }

  lemma NothingToAdd(s: State, crons: seq<Spec>)
    requires s.entries == map[] && crons != []
    ensures Added(s.entries, ById(crons)) != []
  {
    ByIdDistinct(crons);
    AddedAre(s.entries, ById(crons));
    assert ById(crons)[0].0 !in s.entries;
  }

  /** What an accepted promote of a non-empty list leaves: no state reached from an empty one is corrupt. */
  lemma PromoteEffect(s: State, crons: seq<Spec>)
    requires Ordered(s) && crons != [] && Accepted(s, crons)
    ensures var byId := ById(crons);
      var n := |Added(s.entries, byId)|;
      PromoteStep(s, crons) ==
        State(true, NextEntries(s.entries, byId, Seed(s)), Some(Seed(s) + n), s.issued + Counted(Seed(s), n))
  {
    hide Added, Place, ById, NextEntries, Counted;
    if s.entries == map[] { NothingToAdd(s, crons); }
  }

  lemma PromoteOrdered(s: State, crons: seq<Spec>)
    requires Ordered(s) && crons != [] && Accepted(s, crons)
    ensures Ordered(PromoteStep(s, crons))
  {
    hide Added, Place, ById, NextEntries, PromoteStep;
    var t, n := PromoteStep(s, crons), |Added(s.entries, ById(crons))|;
    PromoteEffect(s, crons);
    GenerationsAbove(s.issued, Seed(s), n);
    ByIdDistinct(crons);
    EntriesAfter(s.entries, crons, Seed(s), ById(crons)[0].0);
    assert ById(crons)[0].0 in t.entries;
    forall k | k in t.entries ensures t.entries[k].gen in t.issued {
      EntriesAfter(s.entries, crons, Seed(s), k);
      if k !in s.entries {
        var i := t.entries[k].gen - Seed(s) - 1;
        assert t.issued[|s.issued| + i] == t.entries[k].gen;
      }
    }
  }

  lemma OrderedKept(s: State, e: Event)
    requires Ordered(s)
    ensures Ordered(Step(s, e))
  {
    match e
    case Bump =>
    case Promote(crons) =>
      if crons == [] {
        assert ById(crons) == [] && Added(s.entries, ById(crons)) == [];
        assert s.issued + Counted(Seed(s), 0) == s.issued;
      } else if Accepted(s, crons) {
        PromoteOrdered(s, crons);
      }
  }

  function Fresh(): State {
    State(false, map[], None, [])
  }

  lemma {:induction false} OrderedAlong(s: State, es: seq<Event>)
    requires Ordered(s)
    ensures Ordered(Run(s, es))
    decreases |es|
  {
    if es != [] {
      OrderedKept(s, es[0]);
      OrderedAlong(Step(s, es[0]), es[1..]);
    }
  }

  /** One accepted promote of an ordered state. */
  lemma PromotedEntries(s: State, crons: seq<Spec>, k: string)
    requires Ordered(s) && Accepted(s, crons)
    ensures var t := PromoteStep(s, crons);
      && (k in t.entries <==> k in IdsOf(crons))
      && (k in t.entries && k in s.entries ==> t.entries[k] == s.entries[k])
      && (k in t.entries && k !in s.entries ==> Seed(s) < t.entries[k].gen)
  {
    if crons == [] {
      assert ById(crons) == [];
    } else {
      PromoteEffect(s, crons);
      ByIdDistinct(crons);
      EntriesAfter(s.entries, crons, Seed(s), k);
    }
  }

  /** Cron generations: after any run of promotes and bumps, a promote is refused only when the sequence
      is exhausted; the hash then holds exactly the promoted ids, kept crons keep their entry, and each
      added cron gets a generation above every one ever issued, even after all crons had been removed. */
  lemma AddedCronsGetFreshGenerations(es: seq<Event>, crons: seq<Spec>, k: string)
    requires Accepted(Run(Fresh(), es), crons)
    ensures var s := Run(Fresh(), es);
      var t := Step(s, Promote(crons));
      && Increasing(t.issued)
      && (k in t.entries <==> k in IdsOf(crons))
      && (k in t.entries && k in s.entries ==> t.entries[k] == s.entries[k])
      && (k in t.entries && k !in s.entries ==> forall i :: 0 <= i < |s.issued| ==> s.issued[i] < t.entries[k].gen)
  {
    OrderedAlong(Fresh(), es);
    OrderedKept(Run(Fresh(), es), Promote(crons));
    PromotedEntries(Run(Fresh(), es), crons, k);
  }
}
