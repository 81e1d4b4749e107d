/** Delegated token issue under a per-scope lock: acquire, read the clock, scan and count, watch the lock, commit.
    A scope is one issuer with one template. Locks expire, EXEC outcomes may never be learned, and an attempt
    reads its clock once it holds the lock, off by `skew` from the time tokens expire by. */
module DelegatedIssue {
  import opened Prelude

  datatype Config = Config(quota: nat, lockTtl: nat, tokenTtl: nat)

  datatype Token = Token(scope: string, expires: Option<int>, revoked: bool)   // None: missing or not canonical

  datatype Lock = Lock(holder: nat, expires: int)

  datatype Phase =
    | Locked
    | Timed                                              // the clock was read
    | Scanning(todo: set<nat>, records: map<nat, Token>)
    | Admitted(counted: set<nat>)                        // fewer than the quota are active
    | Watching(counted: set<nat>, rev: nat)              // WATCH sent
    | Sent(counted: set<nat>, rev: nat)                  // the lock was ours after WATCH; EXEC is on its way
    | Done

  datatype Attempt = Attempt(scope: string, holder: nat, nowMs: int, phase: Phase)

  datatype State = State(
    now: int,
    tokens: map<nat, Token>,
    nextToken: nat,
    locks: map<string, Lock>,
    revs: map<string, nat>,                              // moved by every change of a scope's lock key
    attempts: map<nat, Attempt>,
    nextHolder: nat
  )

  datatype Event =
    | Tick(ms: nat)
    | Acquire(a: nat, scope: string)
    | ReadClock(a: nat, skew: int)
    | Scan(a: nat)
    | ReadRecord(a: nat, id: nat)
    | Decide(a: nat)
    | Watch(a: nat)
    | CheckLock(a: nat)
    | Exec(a: nat)
    | Abandon(a: nat, release: bool)
    | Revoke(id: nat)

  predicate ActiveAt(t: Token, scope: string, at: int) {
    t.scope == scope && !t.revoked && t.expires.Some? && t.expires.value > at
  }

  function ActiveIn(records: map<nat, Token>, scope: string, at: int): set<nat> {
    set id | id in records && ActiveAt(records[id], scope, at)
  }

  function ActiveTokens(s: State, scope: string): set<nat> {
    ActiveIn(s.tokens, scope, s.now)
  }

  /** countActiveDelegatedTokens cannot tell whether such a record is active, and refuses. */
  predicate Misconfigured(t: Token, scope: string) {
    t.scope == scope && !t.revoked && t.expires.None?
  }

  predicate Countable(records: map<nat, Token>, scope: string) {
    forall id :: id in records ==> !Misconfigured(records[id], scope)
  }

  predicate Holds(s: State, scope: string, holder: nat) {
    scope in s.locks && s.locks[scope].holder == holder
  }

  function RevOf(s: State, scope: string): nat {
    if scope in s.revs then s.revs[scope] else 0
  }

  function Bump(s: State, scope: string): map<string, nat> {
    s.revs[scope := RevOf(s, scope) + 1]
  }

  /** Locks whose TTL ran out are gone, which dirties sessions watching them. */
  function TickStep(s: State, ms: nat): State {
    var now := s.now + ms;
    s.(now := now,
       locks := map k | k in s.locks && s.locks[k].expires > now :: s.locks[k],
       revs := map k | k in s.revs.Keys + s.locks.Keys ::
                 RevOf(s, k) + if k in s.locks && s.locks[k].expires <= now then 1 else 0)
  }

  /** SET NX with a TTL and a random token; a lost reply leaves the lock to its TTL. */
  function AcquireStep(c: Config, s: State, a: nat, scope: string): State {
    if a in s.attempts || scope in s.locks then s
    else s.(
      locks := s.locks[scope := Lock(s.nextHolder, s.now + c.lockTtl)],
      revs := Bump(s, scope),
      attempts := s.attempts[a := Attempt(scope, s.nextHolder, 0, Locked)],
      nextHolder := s.nextHolder + 1)
  }

  function SetPhase(s: State, a: nat, p: Phase): State
    requires a in s.attempts
  {
    s.(attempts := s.attempts[a := s.attempts[a].(phase := p)])
  }

  function ClockStep(s: State, a: nat, skew: int): State {
    if a !in s.attempts || !s.attempts[a].phase.Locked? then s
    else s.(attempts := s.attempts[a := s.attempts[a].(nowMs := s.now + skew, phase := Timed)])
  }

  function ReadStep(s: State, a: nat, id: nat): State {
    if a !in s.attempts || !s.attempts[a].phase.Scanning? || id !in s.attempts[a].phase.todo then s
    else
      var p := s.attempts[a].phase;
      SetPhase(s, a, Scanning(p.todo - {id}, if id in s.tokens then p.records[id := s.tokens[id]] else p.records))
  }

  function DecideStep(c: Config, s: State, a: nat): State {
    if a !in s.attempts || !s.attempts[a].phase.Scanning? || s.attempts[a].phase.todo != {} then s
    else
      var x := s.attempts[a];
      var counted := ActiveIn(x.phase.records, x.scope, x.nowMs);
      if !Countable(x.phase.records, x.scope) || |counted| >= c.quota then s.(attempts := s.attempts - {a})
      else SetPhase(s, a, Admitted(counted))
  }

  function CheckLockStep(s: State, a: nat): State {
    if a !in s.attempts || !s.attempts[a].phase.Watching? then s
    else
      var x := s.attempts[a];
      if Holds(s, x.scope, x.holder) then SetPhase(s, a, Sent(x.phase.counted, x.phase.rev))
      else s.(attempts := s.attempts - {a})
  }

  /** Redis runs the EXEC, whether or not the client ever hears of it. */
  function ExecStep(c: Config, s: State, a: nat): State {
    if a !in s.attempts || !s.attempts[a].phase.Sent? then s
    else
      var x, t := s.attempts[a], SetPhase(s, a, Done);
      if x.phase.rev != RevOf(s, x.scope) then t
      else t.(
        tokens := s.tokens[s.nextToken := Token(x.scope, Some(x.nowMs + c.tokenTtl), false)],
        nextToken := s.nextToken + 1)
  }

  /** The attempt ends; the lock is released by compare-and-delete, or left to its TTL. An EXEC that was sent
      may still run, so nothing ends it. */
  function AbandonStep(s: State, a: nat, release: bool): State {
    if a !in s.attempts || s.attempts[a].phase.Sent? then s
    else
      var x := s.attempts[a];
      var t := s.(attempts := s.attempts - {a});
      if release && Holds(s, x.scope, x.holder) then t.(locks := s.locks - {x.scope}, revs := Bump(s, x.scope)) else t
  }

  function Step(c: Config, s: State, e: Event): State {
    match e
    case Tick(ms) => TickStep(s, ms)
    case Acquire(a, scope) => AcquireStep(c, s, a, scope)
    case ReadClock(a, skew) => ClockStep(s, a, skew)
    case Scan(a) =>
      if a in s.attempts && s.attempts[a].phase.Timed? then SetPhase(s, a, Scanning(s.tokens.Keys, map[])) else s
    case ReadRecord(a, id) => ReadStep(s, a, id)
    case Decide(a) => DecideStep(c, s, a)
    case Watch(a) =>
      if a in s.attempts && s.attempts[a].phase.Admitted?
      then SetPhase(s, a, Watching(s.attempts[a].phase.counted, RevOf(s, s.attempts[a].scope))) else s
    case CheckLock(a) => CheckLockStep(s, a)
    case Exec(a) => ExecStep(c, s, a)
    case Abandon(a, release) => AbandonStep(s, a, release)
    case Revoke(id) => if id in s.tokens then s.(tokens := s.tokens[id := s.tokens[id].(revoked := true)]) else s
  }

  function Run(c: Config, s: State, es: seq<Event>): State
    decreases |es|
  {
    if es == [] then s else Run(c, Step(c, s, es[0]), es[1..])
  }

  // ---- The counting loop ----

  /** The records a scan read: how many are active, or None when one cannot be judged. */
  method CountActiveDelegatedTokens(records: map<nat, Token>, scope: string, nowMs: int) returns (active: Option<nat>)
    ensures active.Some? <==> Countable(records, scope)
    ensures active.Some? ==> active.value == |ActiveIn(records, scope, nowMs)|
  {
    var count, rest := 0, records.Keys;
    ghost var found: set<nat> := {};
    while rest != {}
      invariant rest <= records.Keys && count == |found|
      invariant forall id :: id in records && id !in rest ==> !Misconfigured(records[id], scope)
      invariant forall id :: id in found <==> id in records && id !in rest && ActiveAt(records[id], scope, nowMs)
      decreases |rest|
    {
      var id :| id in rest;
      rest := rest - {id};
      if records[id].scope != scope || records[id].revoked { continue; }
      if records[id].expires.None? { return None; }
      if records[id].expires.value > nowMs { count, found := count + 1, found + {id}; }
    }
    assert found == ActiveIn(records, scope, nowMs);
    active := Some(count);
  }

  // ---- Invariant ----

  /** While the lock is still this attempt's, no active token of the scope escapes its count. */
  predicate Covers(s: State, x: Attempt) {
    match x.phase
    case Locked => true
    case Timed => true
    case Done => true
    case Scanning(todo, records) => ActiveTokens(s, x.scope) <= todo + ActiveIn(records, x.scope, x.nowMs)
    case Admitted(counted) => ActiveTokens(s, x.scope) <= counted
    case Watching(counted, _) => ActiveTokens(s, x.scope) <= counted
    case Sent(counted, _) => ActiveTokens(s, x.scope) <= counted
  }

  predicate AttemptOk(c: Config, s: State, x: Attempt) {
    && (!x.phase.Locked? ==> x.nowMs <= s.now) && x.holder < s.nextHolder
    && (Holds(s, x.scope, x.holder) ==> Covers(s, x))
    && (x.phase.Admitted? || x.phase.Watching? || x.phase.Sent? ==> |x.phase.counted| < c.quota)
    && (x.phase.Watching? || x.phase.Sent? ==> x.phase.rev <= RevOf(s, x.scope))
    && (x.phase.Sent? && x.phase.rev == RevOf(s, x.scope) ==> Holds(s, x.scope, x.holder))
  }

  predicate Attempts(c: Config, s: State) {
    && (forall a :: a in s.attempts ==> AttemptOk(c, s, s.attempts[a]))
    && (forall a, b :: a in s.attempts && b in s.attempts && a != b ==> s.attempts[a].holder != s.attempts[b].holder)
    && (forall k :: k in s.locks ==> s.locks[k].holder < s.nextHolder)
  }

  predicate Ids(s: State) {
    forall id :: id in s.tokens ==> id < s.nextToken
  }

  ghost predicate WithinQuota(c: Config, s: State) {
    forall scope :: |ActiveTokens(s, scope)| <= c.quota
  }

  /** How the stores may move under an attempt: nothing becomes active, and a lock that changes hands
      moves its revision. */
  ghost predicate Quiet(s: State, t: State) {
    && s.now <= t.now && s.nextHolder <= t.nextHolder
    && (forall k :: ActiveTokens(t, k) <= ActiveTokens(s, k))
    && (forall k :: RevOf(s, k) <= RevOf(t, k))
    && (forall k :: RevOf(s, k) == RevOf(t, k) ==>
          (k in t.locks <==> k in s.locks) && (k in s.locks ==> t.locks[k] == s.locks[k]))
    && (forall k, h: nat :: h < s.nextHolder && Holds(t, k, h) ==> Holds(s, k, h))
  }

  lemma AttemptKept(c: Config, s: State, t: State, x: Attempt)
    requires AttemptOk(c, s, x) && Quiet(s, t)
    ensures AttemptOk(c, t, x)
  {
    assert RevOf(s, x.scope) <= RevOf(t, x.scope);
    assert ActiveTokens(t, x.scope) <= ActiveTokens(s, x.scope);
  }

  lemma QuietQuota(c: Config, s: State, t: State)
    requires WithinQuota(c, s) && Quiet(s, t)
    ensures WithinQuota(c, t)
  {
    forall k ensures |ActiveTokens(t, k)| <= c.quota { SubsetSize(ActiveTokens(t, k), ActiveTokens(s, k)); }
  }

  /** A commit adds one token to fewer than the quota that its count still covers. */
  lemma CommitWithinQuota(c: Config, s: State, a: nat)
    requires WithinQuota(c, s) && Ids(s) && a in s.attempts && AttemptOk(c, s, s.attempts[a])
    requires s.attempts[a].phase.Sent? && s.attempts[a].phase.rev == RevOf(s, s.attempts[a].scope)
    ensures WithinQuota(c, ExecStep(c, s, a))
  {
    var x, t := s.attempts[a], ExecStep(c, s, a);
    forall k ensures |ActiveTokens(t, k)| <= c.quota {
      if k == x.scope {
        assert ActiveTokens(t, k) <= x.phase.counted + {s.nextToken};
        SubsetSize(ActiveTokens(t, k), x.phase.counted + {s.nextToken});
      } else {
        assert ActiveTokens(t, k) == ActiveTokens(s, k);
      }
    }
  }

  predicate NotAhead(e: Event) {
    e.ReadClock? ==> e.skew <= 0
  }

  predicate Moves(e: Event) {
    e.Tick? || e.Acquire? || e.Abandon? || e.Revoke?
  }

  lemma TickIsQuiet(s: State, ms: nat)
    ensures Quiet(s, TickStep(s, ms))
  {
    var t := TickStep(s, ms);
    forall k ensures RevOf(s, k) <= RevOf(t, k) && ActiveTokens(t, k) <= ActiveTokens(s, k) {}
  }

  lemma AcquireIsQuiet(c: Config, s: State, a: nat, scope: string)
    ensures Quiet(s, AcquireStep(c, s, a, scope))
  {
    var t := AcquireStep(c, s, a, scope);
    forall k ensures RevOf(s, k) <= RevOf(t, k) && ActiveTokens(t, k) <= ActiveTokens(s, k) {}
  }

  lemma AbandonIsQuiet(s: State, a: nat, release: bool)
    ensures Quiet(s, AbandonStep(s, a, release))
  {
    var t := AbandonStep(s, a, release);
    forall k ensures RevOf(s, k) <= RevOf(t, k) && ActiveTokens(t, k) <= ActiveTokens(s, k) {}
  }

  lemma MovesAreQuiet(c: Config, s: State, e: Event)
    requires Moves(e)
    ensures Quiet(s, Step(c, s, e))
  {
    match e
    case Tick(ms) => TickIsQuiet(s, ms);
    case Acquire(a, scope) => AcquireIsQuiet(c, s, a, scope);
    case Abandon(a, release) => AbandonIsQuiet(s, a, release);
    case Revoke(id) => forall k ensures ActiveTokens(Step(c, s, e), k) <= ActiveTokens(s, k) {}
  }

  /** Time, locks and revocations move: attempts keep their promises. */
  lemma MovedAttempt(c: Config, s: State, e: Event, a: nat)
    requires Attempts(c, s) && Moves(e) && a in Step(c, s, e).attempts
    ensures AttemptOk(c, Step(c, s, e), Step(c, s, e).attempts[a])
  {
    hide Quiet;
    MovesAreQuiet(c, s, e);
    if a in s.attempts {
      hide AttemptOk;
      AttemptKept(c, s, Step(c, s, e), s.attempts[a]);
    }
  }

  lemma MovesKept(c: Config, s: State, e: Event)
    requires Attempts(c, s) && Ids(s) && Moves(e)
    ensures Attempts(c, Step(c, s, e)) && Ids(Step(c, s, e))
  {
    forall a | a in s.attempts ensures s.attempts[a].holder < s.nextHolder { assert AttemptOk(c, s, s.attempts[a]); }
    hide AttemptOk;
    var t := Step(c, s, e);
    forall a | a in t.attempts ensures AttemptOk(c, t, t.attempts[a]) { MovedAttempt(c, s, e, a); }
  }

  predicate Phases(e: Event) {
    e.ReadClock? || e.Scan? || e.ReadRecord? || e.Decide? || e.Watch? || e.CheckLock?
  }

  lemma PhaseMoves(c: Config, s: State, e: Event)
    requires Phases(e)
    ensures var t := Step(c, s, e);
      && t == s.(attempts := t.attempts)
      && (forall b :: b in t.attempts ==>
            && b in s.attempts && t.attempts[b].holder == s.attempts[b].holder
            && (b != e.a ==> t.attempts[b] == s.attempts[b]))
  {
  }

  lemma OwnPhase(c: Config, s: State, e: Event)
    requires Phases(e) && NotAhead(e) && e.a in s.attempts
    requires AttemptOk(c, s, s.attempts[e.a]) && e.a in Step(c, s, e).attempts
    ensures AttemptOk(c, s, Step(c, s, e).attempts[e.a])
  {
  }

  lemma SameStores(c: Config, s: State, t: State, x: Attempt)
    requires AttemptOk(c, s, x) && t == s.(attempts := t.attempts)
    ensures AttemptOk(c, t, x)
  {
    assert ActiveTokens(t, x.scope) == ActiveTokens(s, x.scope);
    assert RevOf(t, x.scope) == RevOf(s, x.scope);
  }

  lemma PhasesKept(c: Config, s: State, e: Event)
    requires Attempts(c, s) && Phases(e) && NotAhead(e)
    ensures Attempts(c, Step(c, s, e))
  {
    var t := Step(c, s, e);
    PhaseMoves(c, s, e);
    forall b | b in t.attempts ensures AttemptOk(c, t, t.attempts[b]) {
      if b == e.a { OwnPhase(c, s, e); }
      SameStores(c, s, t, t.attempts[b]);
    }
  }

  lemma ExecKept(c: Config, s: State, a: nat)
    requires Attempts(c, s) && Ids(s) && a in s.attempts && s.attempts[a].phase.Sent?
    ensures Attempts(c, ExecStep(c, s, a)) && Ids(ExecStep(c, s, a))
  {
    var x, t := s.attempts[a], ExecStep(c, s, a);
    forall b | b in t.attempts ensures AttemptOk(c, t, t.attempts[b]) {
      var y := s.attempts[b];
      assert AttemptOk(c, s, y) && AttemptOk(c, s, x);
      assert RevOf(t, y.scope) == RevOf(s, y.scope);
      if y.scope != x.scope || t.tokens == s.tokens { assert ActiveTokens(t, y.scope) == ActiveTokens(s, y.scope); }
    }
  }

  ghost predicate Inv(c: Config, s: State) {
    Attempts(c, s) && Ids(s) && WithinQuota(c, s)
  }

  lemma InvKept(c: Config, s: State, e: Event)
    requires Inv(c, s) && NotAhead(e)
    ensures Inv(c, Step(c, s, e))
  {
    if Moves(e) {
      MovesKept(c, s, e);
      MovesAreQuiet(c, s, e);
      QuietQuota(c, s, Step(c, s, e));
    } else if Phases(e) {
      PhaseMoves(c, s, e);
      PhasesKept(c, s, e);
      forall k ensures ActiveTokens(Step(c, s, e), k) == ActiveTokens(s, k) {}
    } else {
      var a := e.a;
      if a in s.attempts && s.attempts[a].phase.Sent? {
        ExecKept(c, s, a);
        if s.attempts[a].phase.rev == RevOf(s, s.attempts[a].scope) { CommitWithinQuota(c, s, a); }
        else { forall k ensures ActiveTokens(Step(c, s, e), k) == ActiveTokens(s, k) {} }
      }
    }
  }

  function Start(now: int): State {
    State(now, map[], 0, map[], map[], map[], 0)
  }

  lemma {:induction false} InvAlong(c: Config, s: State, es: seq<Event>)
    requires Inv(c, s) && forall i :: 0 <= i < |es| ==> NotAhead(es[i])
    ensures Inv(c, Run(c, s, es))
    decreases |es|
  {
    if es != [] {
      InvKept(c, s, es[0]);
      InvAlong(c, Step(c, s, es[0]), es[1..]);
    }
  }

  lemma StartInv(c: Config, now: int)
    ensures Inv(c, Start(now))
  {
    forall k ensures ActiveTokens(Start(now), k) == {} {}
  }

  /** Quota safety: over every interleaving of issuers, revokes, lock expiry and EXECs whose outcome is never
      learned, no scope ever has more active tokens than its quota, provided no issuer's clock runs ahead. */
  lemma QuotaIsNeverExceeded(c: Config, now: int, es: seq<Event>, scope: string)
    requires forall i :: 0 <= i < |es| ==> NotAhead(es[i])
    ensures |ActiveTokens(Run(c, Start(now), es), scope)| <= c.quota
  {
    StartInv(c, now);
    InvAlong(c, Start(now), es);
  }
}
