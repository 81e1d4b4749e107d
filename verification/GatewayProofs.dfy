/** Gateway coherence over every interleaving of reads, invalidations and resets. */
module GatewayProofs {
  import opened Prelude
  import opened OrderedMap
  import opened GatewayCaches

  // ---- Reader counts: a key's state lives exactly as long as its readers ----

  function Readers(inflight: map<nat, Read>, key: string): set<nat> {
    set id | id in inflight && inflight[id].KeyRead? && inflight[id].key == key
  }

  predicate CountOk(inflight: map<nat, Read>, keyReads: map<string, KeyState>, k: string) {
    && |Readers(inflight, k)| == (if k in keyReads then keyReads[k].readers else 0)
    && (k in keyReads ==> keyReads[k].readers > 0)
  }

  ghost predicate Counted(inflight: map<nat, Read>, keyReads: map<string, KeyState>) {
    forall k :: CountOk(inflight, keyReads, k)
  }

  lemma ReadersAdded(inflight: map<nat, Read>, id: nat, r: Read, k: string)
    requires id !in inflight
    ensures |Readers(inflight[id := r], k)| ==
              |Readers(inflight, k)| + if r.KeyRead? && r.key == k then 1 else 0
  {
    var more := inflight[id := r];
    if r.KeyRead? && r.key == k {
      assert Readers(more, k) == Readers(inflight, k) + {id};
    } else {
      assert Readers(more, k) == Readers(inflight, k);
    }
  }

  lemma ReadersRemoved(inflight: map<nat, Read>, id: nat, k: string)
    requires id in inflight
    ensures |Readers(inflight - {id}, k)| ==
              |Readers(inflight, k)| - if inflight[id].KeyRead? && inflight[id].key == k then 1 else 0
  {
    if inflight[id].KeyRead? && inflight[id].key == k {
      assert Readers(inflight - {id}, k) == Readers(inflight, k) - {id};
    } else {
      assert Readers(inflight - {id}, k) == Readers(inflight, k);
    }
  }

  function KeyReadsAfter(s: State, id: nat): map<string, KeyState>
    requires id in s.inflight
  {
    if s.inflight[id].KeyRead? then EndKeyRead(s.keyReads, s.inflight[id].key) else s.keyReads
  }

  lemma CountsAfterEnd(s: State, id: nat)
    requires Counted(s.inflight, s.keyReads) && id in s.inflight
    ensures Counted(s.inflight - {id}, KeyReadsAfter(s, id))
  {
    var r := s.inflight[id];
    forall k ensures CountOk(s.inflight - {id}, KeyReadsAfter(s, id), k) {
      assert CountOk(s.inflight, s.keyReads, k);
      ReadersRemoved(s.inflight, id, k);
      if r.KeyRead? && r.key == k { assert id in Readers(s.inflight, k); }
    }
  }

  lemma CountsAfterBegin(s: State, id: nat, key: string)
    requires Counted(s.inflight, s.keyReads) && id !in s.inflight
    ensures var t := BeginKeyRead(s, id, key); Counted(t.inflight, t.keyReads)
  {
    var t := BeginKeyRead(s, id, key);
    forall k ensures CountOk(t.inflight, t.keyReads, k) {
      assert CountOk(s.inflight, s.keyReads, k);
      ReadersAdded(s.inflight, id, t.inflight[id], k);
    }
  }

  lemma CountsAfterMember(s: State, id: nat, r: Read)
    requires Counted(s.inflight, s.keyReads) && r.MemberRead?
    requires id in s.inflight ==> s.inflight[id].MemberRead?
    ensures Counted(s.inflight[id := r], s.keyReads)
  {
    var more := s.inflight[id := r];
    forall k ensures CountOk(more, s.keyReads, k) {
      assert CountOk(s.inflight, s.keyReads, k);
      assert Readers(more, k) == Readers(s.inflight, k);
    }
  }

  lemma CountsAfterDelivery(s: State, key: string)
    requires Counted(s.inflight, s.keyReads)
    ensures Counted(s.inflight, DeliverStep(s, key).keyReads)
  {
    forall k ensures CountOk(s.inflight, DeliverStep(s, key).keyReads, k) {
      assert CountOk(s.inflight, s.keyReads, k);
    }
  }

  // ---- Coherence ----

  /** Nothing delivered for any key since `instant`. */
  ghost predicate After(s: State, instant: nat) {
    forall k :: Floor(s, k) < instant
  }

  ghost predicate ClockOk(s: State) {
    forall k :: Floor(s, k) <= s.clock
  }

  ghost predicate CacheOk(s: State) {
    && Distinct(s.cache) && |s.cache| <= MAX_ENTRIES
    && (forall i :: 0 <= i < |s.cache| ==> Floor(s, s.cache[i].0) < s.cache[i].1)
  }

  /** A key the gate rejects was absent in a read begun after its last delivery. */
  ghost predicate KnownOk(s: State) {
    s.known.Some? ==>
      && s.seen.promised <= s.known.value.members
      && (forall k :: k !in s.known.value.members ==> Floor(s, k) < s.known.value.began)
  }

  ghost predicate ReadOk(s: State, r: Read) {
    match r
    case MemberRead(key, reset, membership, began, snapshot) =>
      && reset <= s.resetEpoch && membership <= s.membershipEpoch
      && (MemberReadHolds(s, r) ==> After(s, began) && (snapshot.Some? ==> s.seen.promised <= snapshot.value))
    case KeyRead(key, reset, epoch, began) =>
      && reset <= s.resetEpoch
      && key in s.keyReads && epoch <= s.keyReads[key].epoch
      && (KeyReadHolds(s, r) ==> Floor(s, key) < began)
  }

  ghost predicate ReadsOk(s: State) {
    forall id :: id in s.inflight ==> ReadOk(s, s.inflight[id])
  }

  predicate AnswersOk(answers: seq<Answer>) {
    forall i :: 0 <= i < |answers| ==>
      answers[i].floor < answers[i].began && (!answers[i].known ==> !answers[i].promised)
  }

  ghost predicate Coherent(s: State) {
    && Counted(s.inflight, s.keyReads) && ClockOk(s) && s.seen.promised <= s.members
    && CacheOk(s) && KnownOk(s) && ReadsOk(s) && AnswersOk(s.answers)
  }

  lemma StoredOk(cache: seq<(string, nat)>, key: string, began: nat)
    requires Distinct(cache) && |cache| <= MAX_ENTRIES
    ensures var next := Stored(cache, key, began);
      && Distinct(next) && |next| <= MAX_ENTRIES && Find(next, key) == Some(began)
      && (forall i :: 0 <= i < |next| ==> next[i] in cache || next[i] == (key, began))
  {
    ReplacedLast(cache, key, began, _ => 0);
    var next := Stored(cache, key, began);
    FindUnique(next, key, |next| - 1);
  }

  lemma TouchedOk(s: State, key: string)
    requires CacheOk(s) && Find(s.cache, key).Some?
    ensures CacheOk(s.(cache := Remove(s.cache, key) + [(key, Find(s.cache, key).value)]))
    ensures Floor(s, key) < Find(s.cache, key).value
  {
    FindIs(s.cache, key);
    ReplacedLast(s.cache, key, Find(s.cache, key).value, _ => 0);
  }

  lemma CachedOk(s: State, key: string, began: nat)
    requires CacheOk(s) && Floor(s, key) < began
    ensures CacheOk(s.(cache := Stored(s.cache, key, began)))
  {
    StoredOk(s.cache, key, began);
  }

  /** A read whose key has a state: it is counted there. */
  lemma ReaderHasState(s: State, id: nat)
    requires Counted(s.inflight, s.keyReads) && id in s.inflight && s.inflight[id].KeyRead?
    ensures s.inflight[id].key in s.keyReads
  {
    assert id in Readers(s.inflight, s.inflight[id].key);
    assert CountOk(s.inflight, s.keyReads, s.inflight[id].key);
  }

  /** As every handler finds the state: the clock is past everything delivered. */
  ghost predicate Ready(s: State) {
    Coherent(s) && After(s, s.clock)
  }

  /** Steps that deliver nothing leave every floor. */
  predicate SameFloors(s: State, t: State) {
    t.seen == s.seen
  }

  lemma FloorsStay(s: State, t: State)
    requires SameFloors(s, t)
    ensures forall k :: Floor(t, k) == Floor(s, k)
  {
  }

  lemma BeginKeyReadOk(s: State, id: nat, key: string)
    requires Ready(s) && id !in s.inflight
    ensures Coherent(BeginKeyRead(s, id, key))
  {
    var t := BeginKeyRead(s, id, key);
    CountsAfterBegin(s, id, key);
    FloorsStay(s, t);
    assert Floor(s, key) < s.clock;
    forall k | k in t.inflight ensures ReadOk(t, t.inflight[k]) {
      if k != id { assert ReadOk(s, s.inflight[k]); }
    }
  }

  lemma BeginMemberReadOk(s: State, id: nat, key: string)
    requires Ready(s) && id !in s.inflight
    ensures var r := MemberRead(key, s.resetEpoch, s.membershipEpoch, s.clock, None);
      Coherent(s.(inflight := s.inflight[id := r]))
  {
    var r := MemberRead(key, s.resetEpoch, s.membershipEpoch, s.clock, None);
    var t := s.(inflight := s.inflight[id := r]);
    CountsAfterMember(s, id, r);
    FloorsStay(s, t);
    forall k | k in t.inflight ensures ReadOk(t, t.inflight[k]) {
      if k != id { assert ReadOk(s, s.inflight[k]); }
    }
  }

  lemma AnsweredOk(s: State, key: string, known: bool, began: nat)
    requires Coherent(s) && Floor(s, key) < began && (!known ==> key !in s.seen.promised)
    ensures Coherent(Answered(s, key, known, began))
  {
    var t := Answered(s, key, known, began);
    FloorsStay(s, t);
    forall k | k in t.inflight ensures ReadOk(t, t.inflight[k]) { assert ReadOk(s, s.inflight[k]); }
  }

  /** Replacing the cache or the gate by ones that are in order. */
  lemma ReplacedOk(s: State, t: State)
    requires Coherent(s) && t == s.(cache := t.cache, known := t.known) && CacheOk(t) && KnownOk(t)
    ensures Coherent(t)
  {
    FloorsStay(s, t);
    forall k | k in t.inflight ensures ReadOk(t, t.inflight[k]) { assert ReadOk(s, s.inflight[k]); }
  }

  lemma ResolveKept(s: State, id: nat, key: string)
    requires Ready(s)
    ensures Coherent(ResolveStep(s, id, key))
  {
    if id !in s.inflight {
      if s.known.None? {
        BeginMemberReadOk(s, id, key);
      } else if key !in s.known.value.members {
        AnsweredOk(s, key, false, s.known.value.began);
      } else if Find(s.cache, key).Some? {
        var began := Find(s.cache, key).value;
        var t := s.(cache := Remove(s.cache, key) + [(key, began)]);
        TouchedOk(s, key);
        FloorsStay(s, t);
        ReplacedOk(s, t);
        AnsweredOk(t, key, true, began);
      } else {
        BeginKeyReadOk(s, id, key);
      }
    }
  }

  /** A read ends: the others keep their states and their verdicts. */
  lemma EndedOk(s: State, id: nat)
    requires Ready(s) && id in s.inflight
    ensures Coherent(s.(inflight := s.inflight - {id}, keyReads := KeyReadsAfter(s, id)))
  {
    var t := s.(inflight := s.inflight - {id}, keyReads := KeyReadsAfter(s, id));
    CountsAfterEnd(s, id);
    FloorsStay(s, t);
    forall k | k in t.inflight ensures ReadOk(t, t.inflight[k]) {
      assert ReadOk(s, s.inflight[k]);
      if t.inflight[k].KeyRead? { ReaderHasState(t, k); }
    }
  }

  lemma CompleteKeyKept(s: State, id: nat)
    requires Ready(s) && id in s.inflight && s.inflight[id].KeyRead?
    ensures Coherent(CompleteKey(s, id, s.inflight[id]))
  {
    var r := s.inflight[id];
    EndedOk(s, id);
    assert ReadOk(s, r);
    if KeyReadHolds(s, r) {
      var t := s.(inflight := s.inflight - {id}, keyReads := KeyReadsAfter(s, id));
      var u := t.(cache := Stored(s.cache, r.key, r.began));
      CachedOk(t, r.key, r.began);
      FloorsStay(t, u);
      ReplacedOk(t, u);
      AnsweredOk(u, r.key, true, r.began);
    }
  }

  lemma CompleteMemberKept(s: State, id: nat)
    requires Ready(s) && id in s.inflight && s.inflight[id].MemberRead? && s.inflight[id].snapshot.Some?
    ensures Coherent(CompleteMember(s, id, s.inflight[id]))
  {
    var r := s.inflight[id];
    EndedOk(s, id);
    assert ReadOk(s, r);
    if MemberReadHolds(s, r) {
      var t := s.(inflight := s.inflight - {id});
      var known := Some(Known(r.snapshot.value, r.began));
      assert Floor(s, r.key) < r.began;
      CachedOk(t, r.key, r.began);
      var u := if r.key in r.snapshot.value then t.(known := known, cache := Stored(s.cache, r.key, r.began))
               else t.(known := known);
      FloorsStay(s, u);
      ReplacedOk(t, u);
      AnsweredOk(u, r.key, r.key in r.snapshot.value, r.began);
    }
  }

  lemma CompleteKept(s: State, id: nat)
    requires Ready(s)
    ensures Coherent(CompleteStep(s, id))
  {
    if id in s.inflight {
      if s.inflight[id].KeyRead? { CompleteKeyKept(s, id); }
      else if s.inflight[id].snapshot.Some? { CompleteMemberKept(s, id); }
    }
  }

  lemma FailKept(s: State, id: nat)
    requires Ready(s)
    ensures Coherent(FailStep(s, id))
  {
    if id in s.inflight { EndedOk(s, id); }
  }

  lemma ExecuteKept(s: State, id: nat)
    requires Ready(s)
    ensures Coherent(ExecuteStep(s, id))
  {
    var t := ExecuteStep(s, id);
    FloorsStay(s, t);
    if id in s.inflight && s.inflight[id].MemberRead? {
      CountsAfterMember(s, id, s.inflight[id].(snapshot := Some(s.members)));
    }
    forall k | k in t.inflight ensures ReadOk(t, t.inflight[k]) { assert ReadOk(s, s.inflight[k]); }
  }

  /** A delivery ages every membership read and every read of its key. */
  lemma DeliverReads(s: State, key: string)
    requires Ready(s)
    ensures ReadsOk(DeliverStep(s, key))
  {
    var t := DeliverStep(s, key);
    assert forall j :: j != key ==> Floor(t, j) == Floor(s, j);
    forall k | k in t.inflight ensures ReadOk(t, t.inflight[k]) { assert ReadOk(s, s.inflight[k]); }
  }

  lemma DeliverCache(s: State, key: string)
    requires CacheOk(s)
    ensures CacheOk(DeliverStep(s, key))
  {
    var t := DeliverStep(s, key);
    RemovedWithin(s.cache, key);
    RemovedSum(s.cache, key, _ => 0);
    forall i | 0 <= i < |t.cache| ensures Floor(t, t.cache[i].0) < t.cache[i].1 {
      assert t.cache[i] in s.cache;
      assert Floor(t, t.cache[i].0) == Floor(s, t.cache[i].0);
    }
  }

  lemma DeliverGate(s: State, key: string)
    requires KnownOk(s) && After(s, s.clock)
    ensures KnownOk(DeliverStep(s, key)) && ClockOk(DeliverStep(s, key))
  {
    var t := DeliverStep(s, key);
    forall j ensures Floor(t, j) <= t.clock && (j != key ==> Floor(t, j) == Floor(s, j)) {
      assert Floor(s, j) < s.clock;
    }
  }

  lemma DeliverKept(s: State, key: string)
    requires Ready(s)
    ensures Coherent(DeliverStep(s, key))
  {
    CountsAfterDelivery(s, key);
    DeliverReads(s, key);
    DeliverCache(s, key);
    DeliverGate(s, key);
  }

  lemma ResetKept(s: State)
    requires Ready(s)
    ensures Coherent(ResetStep(s))
  {
    var t := ResetStep(s);
    forall j ensures Floor(t, j) <= t.clock { assert Floor(s, j) < s.clock; }
    forall k | k in t.inflight ensures ReadOk(t, t.inflight[k]) { assert ReadOk(s, s.inflight[k]); }
  }

  lemma MembershipKept(s: State, key: string, e: Event)
    requires Ready(s) && (e == Promote(key) || e == Retire(key))
    ensures Coherent(Handle(s, e))
  {
    var t := Handle(s, e);
    assert forall j :: Floor(t, j) == Floor(s, j);
    forall k | k in t.inflight ensures ReadOk(t, t.inflight[k]) { assert ReadOk(s, s.inflight[k]); }
  }

  lemma ReadyAtNextInstant(s: State)
    requires Coherent(s)
    ensures Ready(s.(clock := s.clock + 1))
  {
    var t := s.(clock := s.clock + 1);
    assert forall j :: Floor(t, j) == Floor(s, j);
    forall k | k in t.inflight ensures ReadOk(t, t.inflight[k]) { assert ReadOk(s, s.inflight[k]); }
  }

  lemma CoherentKept(s: State, e: Event)
    requires Coherent(s)
    ensures Coherent(Step(s, e))
  {
    var s' := s.(clock := s.clock + 1);
    ReadyAtNextInstant(s);
    match e
    case Resolve(id, key) => ResolveKept(s', id, key);
    case Execute(id) => ExecuteKept(s', id);
    case Complete(id) => CompleteKept(s', id);
    case Fail(id) => FailKept(s', id);
    case Deliver(key) => DeliverKept(s', key);
    case Reset => ResetKept(s');
    case Promote(key) => MembershipKept(s', key, e);
    case Retire(key) => MembershipKept(s', key, e);
  }

  // ---- Theorems ----

  /** A gateway before its first request. */
  function Start(kind: Kind, members: set<string>): State {
    State(kind, 0, [], None, 0, 0, map[], map[], Seen(map[], 0, {}), members, [])
  }

  lemma {:induction false} CoherentAlong(s: State, es: seq<Event>)
    requires Coherent(s)
    ensures Coherent(Run(s, es))
    decreases |es|
  {
    if es != [] {
      CoherentKept(s, es[0]);
      CoherentAlong(Step(s, es[0]), es[1..]);
    }
  }

  lemma StartCoherent(kind: Kind, members: set<string>)
    ensures Coherent(Start(kind, members))
  {
    var s := Start(kind, members);
    forall k ensures CountOk(s.inflight, s.keyReads, k) { assert Readers(s.inflight, k) == {}; }
  }

  /** Gateway coherence: every resolution handed out, cached, fresh or rejected at the gate, comes from a
      Redis read begun after everything delivered for its key by then, and a key whose promotion has been
      delivered is not rejected. */
  lemma ResolutionsFollowDeliveries(kind: Kind, members: set<string>, es: seq<Event>)
    ensures var t := Run(Start(kind, members), es);
      && |t.cache| <= MAX_ENTRIES
      && forall i :: 0 <= i < |t.answers| ==>
           && t.answers[i].floor < t.answers[i].began
           && (t.answers[i].promised ==> t.answers[i].known)
  {
    StartCoherent(kind, members);
    CoherentAlong(Start(kind, members), es);
  }

  /** An undisturbed first resolution answers from its own read and is cached for the next one; a
      delivery in between makes the reply be dropped instead. */
  lemma ResolutionCompletesUnlessOvertaken(s: State, id: nat, key: string)
    requires s.known.None? && id !in s.inflight && key in s.members && |s.cache| < MAX_ENTRIES && Distinct(s.cache)
    ensures var r := Step(Step(s, Resolve(id, key)), Execute(id));
      var t := Step(r, Complete(id));
      && Find(t.cache, key) == Some(s.clock + 1)
      && t.answers == s.answers + [Answer(key, true, s.clock + 1, Floor(s, key), key in s.seen.promised)]
      && Step(t, Resolve(id, key)).answers == t.answers + [Last(t.answers)]
      && Step(Step(r, Deliver(key)), Complete(id)).answers == s.answers
      && id !in Step(Step(r, Deliver(key)), Complete(id)).inflight
  {
    var r := Step(Step(s, Resolve(id, key)), Execute(id));
    assert r.inflight[id] == MemberRead(key, s.resetEpoch, s.membershipEpoch, s.clock + 1, Some(s.members));
    var t := Step(r, Complete(id));
    FindAfterStore(s.cache, key, s.clock + 1);
    assert Floor(t, key) == Floor(s, key);
    assert t.known.value.members == s.members;
    assert id !in t.inflight;
  }

  lemma {:induction false} FindAfterRemove(m: seq<(string, nat)>, key: string)
    requires Distinct(m)
    ensures Find(Remove(m, key), key).None?
  {
    RemovedWithin(m, key);
    FindIs(Remove(m, key), key);
  }

  lemma FindAfterStore(cache: seq<(string, nat)>, key: string, began: nat)
    requires |cache| < MAX_ENTRIES && Distinct(cache)
    ensures Find(Stored(cache, key, began), key) == Some(began)
  {
    FindAfterRemove(cache, key);
    RemovedSum(cache, key, _ => 0);
    FindAppended(Remove(cache, key), key, began, key);
  }
}
