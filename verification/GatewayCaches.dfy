/** The gateway's routing caches: Redis reads racing pub/sub invalidations, guarded by reset,
    membership and per-key epochs. Namespace routes and host patterns differ only in what an
    invalidation does to the known set. Every step advances a clock, so "a read begun after a
    delivery" is a comparison of instants. */
module GatewayCaches {
  import opened Prelude
  import opened OrderedMap

  const MAX_ENTRIES: nat := 10_000

  datatype Kind = Routes | Patterns

  /** The membership gate, with the instant its Redis read began. */
  datatype Known = Known(members: set<string>, began: nat)

  datatype KeyState = KeyState(epoch: nat, readers: nat)

  datatype Read =
    | MemberRead(key: string, reset: nat, membership: nat, began: nat, snapshot: Option<set<string>>)
    | KeyRead(key: string, reset: nat, epoch: nat, began: nat)

  /** A resolution handed to a request: from which read it comes, and what had been delivered. */
  datatype Answer = Answer(key: string, known: bool, began: nat, floor: nat, promised: bool)

  /** What the subscriber has delivered: the last instant per key, the last reset, and the keys still in the set
      whose promotion it announced. */
  datatype Seen = Seen(delivered: map<string, nat>, resetAt: nat, promised: set<string>)

  datatype State = State(
    kind: Kind,
    clock: nat,
    cache: seq<(string, nat)>,      // key to the instant its read began, least recently used first
    known: Option<Known>,
    resetEpoch: nat,
    membershipEpoch: nat,
    keyReads: map<string, KeyState>,
    inflight: map<nat, Read>,
    seen: Seen,
    members: set<string>,           // the membership set in Redis
    answers: seq<Answer>
  )

  datatype Event =
    | Resolve(id: nat, key: string)
    | Execute(id: nat)
    | Complete(id: nat)
    | Fail(id: nat)
    | Deliver(key: string)
    | Reset
    | Promote(key: string)
    | Retire(key: string)

  function Floor(s: State, key: string): nat {
    var d := if key in s.seen.delivered then s.seen.delivered[key] else 0;
    if d >= s.seen.resetAt then d else s.seen.resetAt
  }

  function Answered(s: State, key: string, known: bool, began: nat): State {
    s.(answers := s.answers + [Answer(key, known, began, Floor(s, key), key in s.seen.promised)])
  }

  /** setBoundedCacheEntry. */
  function Stored(cache: seq<(string, nat)>, key: string, began: nat): seq<(string, nat)> {
    var next := Remove(cache, key) + [(key, began)];
    if |next| > MAX_ENTRIES then next[1..] else next
  }

  function BeginKeyRead(s: State, id: nat, key: string): State {
    var state := if key in s.keyReads then s.keyReads[key] else KeyState(0, 0);
    s.(keyReads := s.keyReads[key := state.(readers := state.readers + 1)],
       inflight := s.inflight[id := KeyRead(key, s.resetEpoch, state.epoch, s.clock)])
  }

  /** One attempt of a resolver up to its answer or its first await. */
  function ResolveStep(s: State, id: nat, key: string): State {
    if id in s.inflight then s
    else if s.known.None? then
      s.(inflight := s.inflight[id := MemberRead(key, s.resetEpoch, s.membershipEpoch, s.clock, None)])
    else if key !in s.known.value.members then Answered(s, key, false, s.known.value.began)
    else
      match Find(s.cache, key)
      case Some(began) => Answered(s.(cache := Remove(s.cache, key) + [(key, began)]), key, true, began)
      case None => BeginKeyRead(s, id, key)
  }

  /** Redis runs the read. */
  function ExecuteStep(s: State, id: nat): State {
    if id in s.inflight && s.inflight[id].MemberRead?
    then s.(inflight := s.inflight[id := s.inflight[id].(snapshot := Some(s.members))]) else s
  }

  function EndKeyRead(keyReads: map<string, KeyState>, key: string): map<string, KeyState> {
    if key !in keyReads then keyReads
    else if keyReads[key].readers <= 1 then keyReads - {key}
    else keyReads[key := keyReads[key].(readers := keyReads[key].readers - 1)]
  }

  predicate MemberReadHolds(s: State, r: Read)
    requires r.MemberRead?
  {
    r.reset == s.resetEpoch && r.membership == s.membershipEpoch
  }

  predicate KeyReadHolds(s: State, r: Read)
    requires r.KeyRead?
  {
    r.reset == s.resetEpoch && r.key in s.keyReads && r.epoch == s.keyReads[r.key].epoch
  }

  function CompleteMember(s: State, id: nat, r: Read): State
    requires r.MemberRead? && r.snapshot.Some?
  {
    var t := s.(inflight := s.inflight - {id});
    if !MemberReadHolds(s, r) then t
    else
      var u := t.(known := Some(Known(r.snapshot.value, r.began)));
      if r.key !in r.snapshot.value then Answered(u, r.key, false, r.began)
      else Answered(u.(cache := Stored(s.cache, r.key, r.began)), r.key, true, r.began)
  }

  function CompleteKey(s: State, id: nat, r: Read): State
    requires r.KeyRead?
  {
    var t := s.(inflight := s.inflight - {id}, keyReads := EndKeyRead(s.keyReads, r.key));
    if !KeyReadHolds(s, r) then t
    else Answered(t.(cache := Stored(s.cache, r.key, r.began)), r.key, true, r.began)
  }

  /** The reply arrives: an overtaken view is dropped and the caller tries again. */
  function CompleteStep(s: State, id: nat): State {
    if id !in s.inflight then s
    else if s.inflight[id].KeyRead? then CompleteKey(s, id, s.inflight[id])
    else if s.inflight[id].snapshot.None? then s
    else CompleteMember(s, id, s.inflight[id])
  }

  function FailStep(s: State, id: nat): State {
    if id !in s.inflight then s
    else
      var t := s.(inflight := s.inflight - {id});
      if s.inflight[id].KeyRead? then t.(keyReads := EndKeyRead(s.keyReads, s.inflight[id].key)) else t
  }

  function BumpKeyRead(keyReads: map<string, KeyState>, key: string): map<string, KeyState> {
    if key in keyReads then keyReads[key := keyReads[key].(epoch := keyReads[key].epoch + 1)] else keyReads
  }

  /** Routes let a new namespace through the gate at once; patterns read the gate again. */
  function GateAfter(kind: Kind, known: Option<Known>, key: string): Option<Known> {
    if kind == Patterns || known.None? then None
    else Some(known.value.(members := known.value.members + {key}))
  }

  function Delivered(seen: Seen, key: string, at: nat, member: bool): Seen {
    seen.(delivered := seen.delivered[key := at], promised := if member then seen.promised + {key} else seen.promised)
  }

  /** An invalidation of one namespace or host arrives. */
  function DeliverStep(s: State, key: string): State {
    s.(membershipEpoch := s.membershipEpoch + 1,
       keyReads := BumpKeyRead(s.keyReads, key),
       cache := Remove(s.cache, key),
       known := GateAfter(s.kind, s.known, key),
       seen := Delivered(s.seen, key, s.clock, key in s.members))
  }

  function ResetStep(s: State): State {
    s.(resetEpoch := s.resetEpoch + 1, membershipEpoch := s.membershipEpoch + 1,
       cache := [], known := None, seen := s.seen.(resetAt := s.clock))
  }

  function Handle(s: State, e: Event): State {
    match e
    case Resolve(id, key) => ResolveStep(s, id, key)
    case Execute(id) => ExecuteStep(s, id)
    case Complete(id) => CompleteStep(s, id)
    case Fail(id) => FailStep(s, id)
    case Deliver(key) => DeliverStep(s, key)
    case Reset => ResetStep(s)
    case Promote(key) => s.(members := s.members + {key})
    case Retire(key) => s.(members := s.members - {key}, seen := s.seen.(promised := s.seen.promised - {key}))
  }

  function Later(s: State): State {
    s.(clock := s.clock + 1)
  }

  function Step(s: State, e: Event): State {
    Handle(Later(s), e)
  }

  function Run(s: State, es: seq<Event>): State
    decreases |es|
  {
    if es == [] then s else Run(Step(s, es[0]), es[1..])
  }
}
