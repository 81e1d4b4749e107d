/** The gateway's module state, updated in place by resolver attempts and subscriber handlers. Every handler keeps
    the caches coherent: what is cached, let through the gate or still in flight is no older than what was delivered. */
module GatewayRuntime {
  import opened Prelude
  import opened OrderedMap
  import opened GatewayCaches
  import opened GatewayProofs

  predicate FreshAnswer(a: Answer) {
    a.floor < a.began && (a.promised ==> a.known)
  }

  lemma AnswersAreFresh(s: State)
    requires Coherent(s)
    ensures forall i :: 0 <= i < |s.answers| ==> FreshAnswer(s.answers[i])
  {
  }

  predicate Holds(s: State, r: Read) {
    if r.MemberRead? then MemberReadHolds(s, r) else KeyReadHolds(s, r)
  }

  /** After a delivery nothing cached or in flight for the key is used. */
  lemma DeliveryOvertakes(s: State, key: string)
    requires Coherent(s)
    ensures var t := Step(s, Deliver(key));
      && Find(t.cache, key).None?
      && (forall id :: id in t.inflight && t.inflight[id].key == key ==> !Holds(t, t.inflight[id]))
  {
    FindAfterRemove(s.cache, key);
    var t := Step(s, Deliver(key));
    forall id | id in t.inflight && t.inflight[id].key == key ensures !Holds(t, t.inflight[id]) {
      assert ReadOk(s, s.inflight[id]);
    }
  }

  lemma ResetOvertakes(s: State)
    requires Coherent(s)
    ensures var t := Step(s, Reset); forall id :: id in t.inflight ==> !Holds(t, t.inflight[id])
  {
    var t := Step(s, Reset);
    forall id | id in t.inflight ensures !Holds(t, t.inflight[id]) { assert ReadOk(s, s.inflight[id]); }
  }

  class Runtime {
    const kind: Kind
    var clock: nat
    var cache: seq<(string, nat)>
    var known: Option<Known>
    var resetEpoch: nat
    var membershipEpoch: nat
    var keyReads: map<string, KeyState>
    var inflight: map<nat, Read>
    var seen: Seen
    var members: set<string>
    var answers: seq<Answer>

    ghost predicate Valid()
      reads this
    {
      Coherent(View())
    }

    constructor (k: Kind)
      ensures Valid() && kind == k && View() == Start(k, {})
    {
      kind := k;
      clock, cache, known, resetEpoch, membershipEpoch := 0, [], None, 0, 0;
      keyReads, inflight, seen := map[], map[], Seen(map[], 0, {});
      members, answers := {}, [];
      new;
      StartCoherent(k, {});
    }

    ghost function View(): State
      reads this
    {
      State(kind, clock, cache, known, resetEpoch, membershipEpoch, keyReads, inflight, seen, members, answers)
    }

    method RecordAnswer(key: string, isKnown: bool, began: nat)
      modifies this`answers
      ensures View() == Answered(old(View()), key, isKnown, began)
    {
      var d := if key in seen.delivered then seen.delivered[key] else 0;
      var floor := if d >= seen.resetAt then d else seen.resetAt;
      answers := answers + [Answer(key, isKnown, began, floor, key in seen.promised)];
    }

    method SetBoundedCacheEntry(key: string, began: nat)
      modifies this`cache
      ensures cache == Stored(old(cache), key, began)
    {
      DropCacheEntry(key);
      cache := cache + [(key, began)];
      if |cache| > MAX_ENTRIES { cache := cache[1..]; }
    }

    /** One attempt of resolveNamespaceRoutes or resolveHostPatterns up to its first await. */
    method ResolveAttempt(id: nat, key: string)
      requires Valid()
      modifies this
      ensures Valid() && View() == Step(old(View()), Resolve(id, key))
      ensures old(answers) <= answers && forall i :: |old(answers)| <= i < |answers| ==> FreshAnswer(answers[i])
    {
      hide Coherent;
      CoherentKept(View(), Resolve(id, key));
      AnswersAreFresh(Step(View(), Resolve(id, key)));
      clock := clock + 1;
      if id in inflight { return; }
      if known.None? {
        inflight := inflight[id := MemberRead(key, resetEpoch, membershipEpoch, clock, None)];
        return;
      }
      if key !in known.value.members {
        RecordAnswer(key, false, known.value.began);
        return;
      }
      var i := Locate(cache, key);
      if i < |cache| {
        var began := cache[i].1;
        cache := cache[..i] + cache[i + 1..] + [(key, began)];
        RecordAnswer(key, true, began);
        return;
      }
      var state := if key in keyReads then keyReads[key] else KeyState(0, 0);
      keyReads := keyReads[key := KeyState(state.epoch, state.readers + 1)];
      inflight := inflight[id := KeyRead(key, resetEpoch, state.epoch, clock)];
    }

    method EndReader(key: string)
      modifies this`keyReads
      ensures keyReads == EndKeyRead(old(keyReads), key)
    {
      if key !in keyReads { return; }
      var state := keyReads[key];
      if state.readers <= 1 {
        keyReads := keyReads - {key};
      } else {
        keyReads := keyReads[key := state.(readers := state.readers - 1)];
      }
    }

    method OnMemberReply(id: nat, r: Read)
      requires r.MemberRead? && r.snapshot.Some?
      modifies this`inflight, this`known, this`cache, this`answers
      ensures View() == CompleteMember(old(View()), id, r)
    {
      inflight := inflight - {id};
      if r.reset != resetEpoch || r.membership != membershipEpoch { return; }
      known := Some(Known(r.snapshot.value, r.began));
      if r.key in r.snapshot.value { SetBoundedCacheEntry(r.key, r.began); }
      RecordAnswer(r.key, r.key in r.snapshot.value, r.began);
    }

    method OnKeyReply(id: nat, r: Read)
      requires r.KeyRead?
      modifies this`inflight, this`keyReads, this`cache, this`answers
      ensures View() == CompleteKey(old(View()), id, r)
    {
      inflight := inflight - {id};
      var current := r.reset == resetEpoch && r.key in keyReads && r.epoch == keyReads[r.key].epoch;
      EndReader(r.key);
      if current {
        SetBoundedCacheEntry(r.key, r.began);
        RecordAnswer(r.key, true, r.began);
      }
    }

    /** The Redis reply of an in-flight attempt: recheck the epochs, then install and answer. */
    method OnReply(id: nat)
      requires Valid()
      modifies this
      ensures Valid() && View() == Step(old(View()), Complete(id))
      ensures old(answers) <= answers && forall i :: |old(answers)| <= i < |answers| ==> FreshAnswer(answers[i])
    {
      hide Coherent;
      CoherentKept(View(), Complete(id));
      AnswersAreFresh(Step(View(), Complete(id)));
      clock := clock + 1;
      if id !in inflight { return; }
      if inflight[id].KeyRead? {
        OnKeyReply(id, inflight[id]);
      } else if inflight[id].snapshot.Some? {
        OnMemberReply(id, inflight[id]);
      }
    }

    method OnFailure(id: nat)
      requires Valid()
      modifies this
      ensures Valid() && View() == Step(old(View()), Fail(id))
      ensures id !in inflight && answers == old(answers) && cache == old(cache)
    {
      hide Coherent;
      CoherentKept(View(), Fail(id));
      clock := clock + 1;
      if id !in inflight { return; }
      var r := inflight[id];
      inflight := inflight - {id};
      if r.KeyRead? { EndReader(r.key); }
    }

    method DropCacheEntry(key: string)
      modifies this`cache
      ensures cache == Remove(old(cache), key)
    {
      var i := Locate(cache, key);
      if i < |cache| { cache := cache[..i] + cache[i + 1..]; } else { RemovedSum(cache, key, _ => 0); }
    }

    /** What an invalidation takes from the readers: the cached entry and every overtaken read. */
    method AgeReads(key: string)
      modifies this`cache, this`membershipEpoch, this`keyReads
      ensures cache == Remove(old(cache), key) && membershipEpoch == old(membershipEpoch) + 1
      ensures keyReads == BumpKeyRead(old(keyReads), key)
    {
      membershipEpoch := membershipEpoch + 1;
      if key in keyReads { keyReads := keyReads[key := keyReads[key].(epoch := keyReads[key].epoch + 1)]; }
      DropCacheEntry(key);
    }

    /** What it does to the gate: patterns read it again, routes let the namespace through. */
    method OpenGate(key: string)
      modifies this`known
      ensures known == GateAfter(kind, old(known), key)
    {
      if kind == Patterns || known.None? {
        known := None;
      } else {
        known := Some(Known(known.value.members + {key}, known.value.began));
      }
    }

    method RecordDelivery(key: string)
      modifies this`seen
      ensures seen == Delivered(old(seen), key, clock, key in members)
    {
      seen := seen.(delivered := seen.delivered[key := clock]);
      if key in members { seen := seen.(promised := seen.promised + {key}); }
    }

    /** A message on the routes or patterns channel. */
    method OnInvalidation(key: string)
      requires Valid()
      modifies this
      ensures Valid() && View() == Step(old(View()), Deliver(key))
      ensures Find(cache, key).None? && forall id :: id in inflight && inflight[id].key == key ==>
        !Holds(View(), inflight[id])
    {
      hide Coherent;
      CoherentKept(View(), Deliver(key));
      DeliveryOvertakes(View(), key);
      clock := clock + 1;
      AgeReads(key);
      OpenGate(key);
      RecordDelivery(key);
    }

    /** Subscriber connect or disconnect, and the flush channels. */
    method ClearState()
      requires Valid()
      modifies this
      ensures Valid() && View() == Step(old(View()), Reset)
      ensures cache == [] && known.None? && forall id :: id in inflight ==> !Holds(View(), inflight[id])
    {
      hide Coherent;
      CoherentKept(View(), Reset);
      ResetOvertakes(View());
      clock := clock + 1;
      resetEpoch, membershipEpoch := resetEpoch + 1, membershipEpoch + 1;
      cache, known, seen := [], None, seen.(resetAt := clock);
    }
  }
}
