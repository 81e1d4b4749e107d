/** The quota holds exactly while no issuer's clock runs ahead: with any clock ahead, by however little, there is
    a run that fills the quota and issues one token more. */
module DelegatedClock {
  import opened Prelude
  import opened DelegatedIssue

  predicate SkewsAtMost(es: seq<Event>, bound: int) {
    forall i :: 0 <= i < |es| ==> es[i].ReadClock? ==> es[i].skew <= bound
  }

  ghost predicate QuotaHolds(c: Config, now: int, scope: string, bound: int) {
    forall es :: SkewsAtMost(es, bound) ==> |ActiveTokens(Run(c, Start(now), es), scope)| <= c.quota
  }

  /** `r` is closed under the steps whose clock, if they read one, is at most `bound` ahead. */
  ghost predicate Closed(c: Config, bound: int, r: iset<State>) {
    forall s, e: Event {:trigger Step(c, s, e)} :: s in r && (e.ReadClock? ==> e.skew <= bound) ==> Step(c, s, e) in r
  }

  // ---- One undisturbed issue ----

  function Below(n: nat): (r: set<nat>)
    ensures |r| == n && forall i: nat :: i in r <==> i < n
  {
    if n == 0 then {} else Below(n - 1) + {n - 1}
  }

  function Copies(t: Token, n: nat): (m: map<nat, Token>)
    ensures m.Keys == Below(n) && forall id :: id in m ==> m[id] == t
  {
    if n == 0 then map[] else Copies(t, n - 1)[n - 1 := t]
  }

  /** `n` tokens of the scope are stored, which all expire at `expires`. */
  predicate Stored(s: State, scope: string, n: nat, expires: int) {
    s.tokens == Copies(Token(scope, Some(expires), false), n) && s.nextToken == n
  }

  function Unread(n: nat, k: nat): set<nat> {
    set i | i in Below(n) && k <= i
  }

  function Taken(tokens: map<nat, Token>, k: nat): map<nat, Token> {
    map id | id in tokens && id < k :: tokens[id]
  }

  predicate Idle(s: State, scope: string) {
    scope !in s.locks && s.attempts == map[]
  }

  /** One issuer is at work, holds the lock and has come to phase `p`. */
  predicate Working(s: State, scope: string, nowMs: int, p: Phase) {
    && s.attempts.Keys == {0} && Holds(s, scope, s.attempts[0].holder)
    && s.attempts[0] == Attempt(scope, s.attempts[0].holder, nowMs, p)
  }

  predicate SameTokens(s: State, t: State) {
    t.now == s.now && t.tokens == s.tokens && t.nextToken == s.nextToken
  }

  lemma Locks(c: Config, r: iset<State>, s: State, scope: string, skew: int) returns (t: State)
    requires Closed(c, skew, r) && s in r && Idle(s, scope)
    ensures t in r && SameTokens(s, t)
    ensures Working(t, scope, s.now + skew, Scanning(s.tokens.Keys, map[]))
  {
    t := Step(c, s, Acquire(0, scope));
    t := Step(c, t, ReadClock(0, skew));
    t := Step(c, t, Scan(0));
  }

  lemma ReadsOne(c: Config, s: State, scope: string, nowMs: int, todo: set<nat>, records: map<nat, Token>, id: nat)
    requires Working(s, scope, nowMs, Scanning(todo, records)) && id in todo && id in s.tokens
    ensures var t := Step(c, s, ReadRecord(0, id));
      SameTokens(s, t) && Working(t, scope, nowMs, Scanning(todo - {id}, records[id := s.tokens[id]]))
  {
  }

  lemma TakesNext(tokens: map<nat, Token>, n: nat, k: nat)
    requires k < n && tokens.Keys == Below(n)
    ensures k in Unread(n, k) && Unread(n, k) - {k} == Unread(n, k + 1)
    ensures Taken(tokens, k)[k := tokens[k]] == Taken(tokens, k + 1)
  {
  }

  lemma ReadsNext(c: Config, bound: int, r: iset<State>, s: State, scope: string, nowMs: int, n: nat, k: nat)
    returns (t: State)
    requires Closed(c, bound, r) && s in r && s.tokens.Keys == Below(n) && k < n
    requires Working(s, scope, nowMs, Scanning(Unread(n, k), Taken(s.tokens, k)))
    ensures t in r && SameTokens(s, t)
    ensures Working(t, scope, nowMs, Scanning(Unread(n, k + 1), Taken(s.tokens, k + 1)))
  {
    TakesNext(s.tokens, n, k);
    ReadsOne(c, s, scope, nowMs, Unread(n, k), Taken(s.tokens, k), k);
    t := Step(c, s, ReadRecord(0, k));
  }

  /** Reading record by record collects all of them. */
  lemma {:induction false} Reads(c: Config, bound: int, r: iset<State>, s: State, scope: string, nowMs: int, n: nat,
                                 k: nat) returns (t: State)
    requires Closed(c, bound, r) && s in r && s.tokens.Keys == Below(n) && k <= n
    requires Working(s, scope, nowMs, Scanning(Unread(n, k), Taken(s.tokens, k)))
    ensures t in r && SameTokens(s, t)
    ensures Working(t, scope, nowMs, Scanning(Unread(n, n), Taken(s.tokens, n)))
    decreases n - k
  {
    t := s;
    if k < n {
      t := ReadsNext(c, bound, r, s, scope, nowMs, n, k);
      t := Reads(c, bound, r, t, scope, nowMs, n, k + 1);
    }
  }

  /** Fewer than the quota are active: decide, watch, check the lock and send. */
  lemma Sends(c: Config, bound: int, r: iset<State>, s: State, scope: string, nowMs: int, records: map<nat, Token>)
    returns (t: State)
    requires Closed(c, bound, r) && s in r && Working(s, scope, nowMs, Scanning({}, records))
    requires Countable(records, scope) && |ActiveIn(records, scope, nowMs)| < c.quota
    ensures t in r && SameTokens(s, t)
    ensures Working(t, scope, nowMs, Sent(ActiveIn(records, scope, nowMs), RevOf(t, scope)))
  {
    t := Step(c, s, Decide(0));
    t := Step(c, t, Watch(0));
    t := Step(c, t, CheckLock(0));
  }

  lemma Commits(c: Config, bound: int, r: iset<State>, s: State, scope: string, nowMs: int, counted: set<nat>)
    returns (t: State)
    requires Closed(c, bound, r) && s in r && Working(s, scope, nowMs, Sent(counted, RevOf(s, scope)))
    ensures t in r && Idle(t, scope) && t.now == s.now && t.nextToken == s.nextToken + 1
    ensures t.tokens == s.tokens[s.nextToken := Token(scope, Some(nowMs + c.tokenTtl), false)]
  {
    t := Step(c, s, Exec(0));
    t := Step(c, t, Abandon(0, true));
  }

  lemma AllRead(tokens: map<nat, Token>, n: nat)
    requires tokens.Keys == Below(n)
    ensures Unread(n, 0) == tokens.Keys && Unread(n, n) == {}
    ensures Taken(tokens, 0) == map[] && Taken(tokens, n) == tokens
  {
  }

  lemma AllCounted(s: State, scope: string, n: nat, expires: int, nowMs: int)
    requires Stored(s, scope, n, expires)
    ensures Countable(s.tokens, scope) && ActiveIn(s.tokens, scope, nowMs) == if expires > nowMs then Below(n) else {}
  {
  }

  lemma Scans(c: Config, r: iset<State>, s: State, scope: string, skew: int, n: nat, expires: int) returns (t: State)
    requires Closed(c, skew, r) && s in r && Stored(s, scope, n, expires) && Idle(s, scope)
    ensures t in r && SameTokens(s, t) && Working(t, scope, s.now + skew, Scanning({}, s.tokens))
  {
    AllRead(s.tokens, n);
    t := Locks(c, r, s, scope, skew);
    t := Reads(c, skew, r, t, scope, s.now + skew, n, 0);
  }

  lemma CountsFewer(c: Config, s: State, scope: string, n: nat, expires: int, nowMs: int)
    requires Stored(s, scope, n, expires) && c.quota > 0 && (n < c.quota || expires <= nowMs)
    ensures Countable(s.tokens, scope) && |ActiveIn(s.tokens, scope, nowMs)| < c.quota
  {
    AllCounted(s, scope, n, expires, nowMs);
  }

  /** An issuer that counts fewer than the quota stores one more token and leaves nothing behind. */
  lemma Issues(c: Config, r: iset<State>, s: State, scope: string, skew: int, n: nat, expires: int) returns (t: State)
    requires Closed(c, skew, r) && s in r && Stored(s, scope, n, expires) && Idle(s, scope) && c.quota > 0
    requires n < c.quota || expires <= s.now + skew
    ensures t in r && Idle(t, scope) && t.now == s.now && t.nextToken == n + 1
    ensures t.tokens == s.tokens[n := Token(scope, Some(s.now + skew + c.tokenTtl), false)]
  {
    var nowMs := s.now + skew;
    CountsFewer(c, s, scope, n, expires, nowMs);
    t := Scans(c, r, s, scope, skew, n, expires);
    t := Sends(c, skew, r, t, scope, nowMs, s.tokens);
    t := Commits(c, skew, r, t, scope, nowMs, ActiveIn(s.tokens, scope, nowMs));
  }

  lemma StoresNext(s: State, t: State, scope: string, n: nat, expires: int)
    requires Stored(s, scope, n, expires) && t.nextToken == n + 1
    requires t.tokens == s.tokens[n := Token(scope, Some(expires), false)]
    ensures Stored(t, scope, n + 1, expires)
  {
  }

  lemma {:induction false} Fills(c: Config, r: iset<State>, s: State, scope: string, skew: int, n: nat)
    returns (t: State)
    requires Closed(c, skew, r) && s in r && Idle(s, scope) && n <= c.quota
    requires Stored(s, scope, n, s.now + skew + c.tokenTtl)
    ensures t in r && Idle(t, scope) && t.now == s.now && Stored(t, scope, c.quota, s.now + skew + c.tokenTtl)
    decreases c.quota - n
  {
    hide Closed, Idle, Stored;
    t := s;
    if n < c.quota {
      t := Issues(c, r, s, scope, skew, n, s.now + skew + c.tokenTtl);
      StoresNext(s, t, scope, n, s.now + skew + c.tokenTtl);
      t := Fills(c, r, t, scope, skew, n + 1);
    }
  }

  // ---- One token too many ----

  lemma Waits(c: Config, r: iset<State>, s: State, scope: string, skew: int, ms: nat, n: nat, expires: int)
    returns (t: State)
    requires Closed(c, skew, r) && s in r && Idle(s, scope) && Stored(s, scope, n, expires)
    ensures t in r && Idle(t, scope) && Stored(t, scope, n, expires) && t.now == s.now + ms
  {
    t := Step(c, s, Tick(ms));
  }

  lemma OneMoreIsActive(s: State, t: State, scope: string, n: nat, expires: int, later: int)
    requires Stored(s, scope, n, expires) && t.tokens == s.tokens[n := Token(scope, Some(later), false)]
    requires t.now < expires && t.now < later
    ensures ActiveTokens(t, scope) == Below(n + 1)
  {
  }

  lemma StartIsEmpty(now: int, scope: string, expires: int)
    ensures Idle(Start(now), scope) && Stored(Start(now), scope, 0, expires) && Start(now).now == now
  {
  }

  /** Fill the quota, wait until its tokens have one millisecond left, and issue once more. */
  lemma Overruns(c: Config, r: iset<State>, now: int, scope: string, skew: int) returns (t: State)
    requires Closed(c, skew, r) && Start(now) in r && c.quota > 0 && skew > 0
    ensures t in r && ActiveTokens(t, scope) == Below(c.quota + 1)
  {
    hide Closed, Idle, Stored, Start, ActiveTokens;
    var expires := now + skew + c.tokenTtl;
    StartIsEmpty(now, scope, expires);
    t := Fills(c, r, Start(now), scope, skew, 0);
    var s := Waits(c, r, t, scope, skew, skew + c.tokenTtl - 1, c.quota, expires);
    t := Issues(c, r, s, scope, skew, c.quota, expires);
    OneMoreIsActive(s, t, scope, c.quota, expires, s.now + skew + c.tokenTtl);
  }

  lemma {:induction false} RunSnoc(c: Config, s: State, es: seq<Event>, e: Event)
    ensures Run(c, s, es + [e]) == Step(c, Run(c, s, es), e)
    decreases |es|
  {
    if es == [] {
      assert Run(c, s, [e]) == Run(c, Step(c, s, e), []);
    } else {
      assert (es + [e])[1..] == es[1..] + [e];
      RunSnoc(c, Step(c, s, es[0]), es[1..], e);
    }
  }

  ghost predicate Reaches(c: Config, bound: int, s: State, t: State) {
    exists es :: SkewsAtMost(es, bound) && Run(c, s, es) == t
  }

  lemma ReachesMore(c: Config, bound: int, s: State, t: State, e: Event)
    requires Reaches(c, bound, s, t) && (e.ReadClock? ==> e.skew <= bound)
    ensures Reaches(c, bound, s, Step(c, t, e))
  {
    var es :| SkewsAtMost(es, bound) && Run(c, s, es) == t;
    RunSnoc(c, s, es, e);
    assert SkewsAtMost(es + [e], bound);
  }

  /** However little ahead the clock is and whatever the positive quota, some run ends one token over it. */
  lemma AheadClockExceedsQuota(c: Config, now: int, scope: string, skew: int)
    requires c.quota > 0 && skew > 0
    ensures exists es :: SkewsAtMost(es, skew) && |ActiveTokens(Run(c, Start(now), es), scope)| == c.quota + 1
  {
    var r := iset t | Reaches(c, skew, Start(now), t);
    forall t, e: Event | t in r && (e.ReadClock? ==> e.skew <= skew) ensures Step(c, t, e) in r {
      ReachesMore(c, skew, Start(now), t, e);
    }
    assert Run(c, Start(now), []) == Start(now) && SkewsAtMost([], skew);
    var t := Overruns(c, r, now, scope, skew);
  }

  /** Over all runs whose issuers' clocks are at most `bound` ahead, the quota holds exactly when `bound` lets
      no clock be ahead at all. */
  lemma QuotaHoldsIffNoClockAhead(c: Config, now: int, scope: string, bound: int)
    requires c.quota > 0
    ensures QuotaHolds(c, now, scope, bound) <==> bound <= 0
  {
    if bound <= 0 {
      forall es | SkewsAtMost(es, bound) ensures |ActiveTokens(Run(c, Start(now), es), scope)| <= c.quota {
        assert forall i :: 0 <= i < |es| ==> NotAhead(es[i]);
        QuotaIsNeverExceeded(c, now, es, scope);
      }
    } else {
      AheadClockExceedsQuota(c, now, scope, bound);
    }
  }
}
