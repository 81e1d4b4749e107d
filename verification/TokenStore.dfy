/** The auth service's delegated issue as it runs: the lock, the records and an attempt's progress updated in
    place, one Redis command at a time. Every method keeps every scope within its quota. */
module TokenStore {
  import opened Prelude
  import opened DelegatedIssue

  lemma InvAttempt(c: Config, s: State, a: nat)
    requires Inv(c, s) && a in s.attempts
    ensures AttemptOk(c, s, s.attempts[a])
  {
  }

  lemma InvQuota(c: Config, s: State, scope: string)
    requires Inv(c, s)
    ensures |ActiveTokens(s, scope)| <= c.quota
  {
  }

  class Store {
    const config: Config
    var now: int
    var tokens: map<nat, Token>
    var nextToken: nat
    var locks: map<string, Lock>
    var revs: map<string, nat>
    var attempts: map<nat, Attempt>
    var nextHolder: nat

    ghost predicate Valid()
      reads this
    {
      Inv(config, View())
    }

    constructor (c: Config, at: int)
      ensures Valid() && config == c && View() == Start(at)
    {
      config := c;
      now, tokens, nextToken, locks, revs, attempts, nextHolder := at, map[], 0, map[], map[], map[], 0;
      new;
      StartInv(c, at);
    }

    ghost function View(): State
      reads this
    {
      State(now, tokens, nextToken, locks, revs, attempts, nextHolder)
    }

    method MoveRevision(scope: string)
      modifies this`revs
      ensures revs == Bump(old(View()), scope)
    {
      revs := revs[scope := (if scope in revs then revs[scope] else 0) + 1];
    }

    /** acquireTokenLock: set if absent, with a TTL and a token of its own. */
    method AcquireTokenLock(a: nat, scope: string) returns (locked: bool)
      requires Valid()
      modifies this`locks, this`revs, this`attempts, this`nextHolder
      ensures Valid() && View() == Step(config, old(View()), Acquire(a, scope))
      ensures locked <==> a !in old(attempts) && scope !in old(locks)
    {
      hide Inv;
      InvKept(config, View(), Acquire(a, scope));
      if a in attempts || scope in locks { return false; }
      locks := locks[scope := Lock(nextHolder, now + config.lockTtl)];
      MoveRevision(scope);
      attempts := attempts[a := Attempt(scope, nextHolder, 0, Locked)];
      nextHolder := nextHolder + 1;
      locked := true;
    }

    /** Date.now() of an issuer that holds the lock and whose clock is not ahead. */
    method ReadIssuerClock(a: nat, skew: int)
      requires Valid() && skew <= 0
      modifies this`attempts
      ensures Valid() && View() == Step(config, old(View()), ReadClock(a, skew))
    {
      hide Inv;
      InvKept(config, View(), ReadClock(a, skew));
      if a !in attempts || !attempts[a].phase.Locked? { return; }
      attempts := attempts[a := attempts[a].(nowMs := now + skew, phase := Timed)];
    }

    method ScanTokens(a: nat)
      requires Valid()
      modifies this`attempts
      ensures Valid() && View() == Step(config, old(View()), Scan(a))
    {
      hide Inv;
      InvKept(config, View(), Scan(a));
      if a !in attempts || !attempts[a].phase.Timed? { return; }
      attempts := attempts[a := attempts[a].(phase := Scanning(tokens.Keys, map[]))];
    }

    method ReadTokenRecord(a: nat, id: nat)
      requires Valid()
      modifies this`attempts
      ensures Valid() && View() == Step(config, old(View()), ReadRecord(a, id))
    {
      hide Inv;
      InvKept(config, View(), ReadRecord(a, id));
      if a !in attempts || !attempts[a].phase.Scanning? || id !in attempts[a].phase.todo { return; }
      var x := attempts[a];
      var records := x.phase.records;
      if id in tokens { records := records[id := tokens[id]]; }
      attempts := attempts[a := x.(phase := Scanning(x.phase.todo - {id}, records))];
    }

    /** The count and the comparison: whoever is admitted, and still holds the lock, finds room in the scope. */
    method CompareWithQuota(a: nat) returns (admitted: bool)
      requires Valid() && a in attempts && attempts[a].phase.Scanning? && attempts[a].phase.todo == {}
      modifies this`attempts
      ensures Valid() && View() == Step(config, old(View()), Decide(a))
      ensures admitted <==> a in attempts
      ensures admitted && Holds(View(), old(attempts[a].scope), old(attempts[a].holder)) ==>
                |ActiveTokens(View(), old(attempts[a].scope))| < config.quota
    {
      hide Inv;
      InvKept(config, View(), Decide(a));
      var x := attempts[a];
      var active := CountActiveDelegatedTokens(x.phase.records, x.scope, x.nowMs);
      if active.None? || active.value >= config.quota {
        attempts := attempts - {a};
        return false;
      }
      ghost var counted := ActiveIn(x.phase.records, x.scope, x.nowMs);
      attempts := attempts[a := x.(phase := Admitted(ActiveIn(x.phase.records, x.scope, x.nowMs)))];
      admitted := true;
      InvAttempt(config, View(), a);
      if Holds(View(), x.scope, x.holder) { SubsetSize(ActiveTokens(View(), x.scope), counted); }
    }

    method WatchLock(a: nat)
      requires Valid()
      modifies this`attempts
      ensures Valid() && View() == Step(config, old(View()), Watch(a))
    {
      hide Inv;
      InvKept(config, View(), Watch(a));
      if a !in attempts || !attempts[a].phase.Admitted? { return; }
      var x := attempts[a];
      attempts := attempts[a := x.(phase := Watching(x.phase.counted, if x.scope in revs then revs[x.scope] else 0))];
    }

    /** The GET of watchDelegatedIssuePrerequisites, after its WATCH. */
    method CheckLockValue(a: nat) returns (ours: bool)
      requires Valid() && a in attempts && attempts[a].phase.Watching?
      modifies this`attempts
      ensures Valid() && View() == Step(config, old(View()), CheckLock(a))
      ensures ours <==> a in attempts && Holds(View(), attempts[a].scope, attempts[a].holder)
    {
      hide Inv;
      InvKept(config, View(), CheckLock(a));
      var x := attempts[a];
      if x.scope !in locks || locks[x.scope].holder != x.holder {
        attempts := attempts - {a};
        return false;
      }
      attempts := attempts[a := x.(phase := Sent(x.phase.counted, x.phase.rev))];
      ours := true;
    }

    /** EXEC: a token is written exactly when the lock is still the issuer's, and the scope stays within its quota. */
    method ExecIssue(a: nat) returns (issued: bool)
      requires Valid() && a in attempts && attempts[a].phase.Sent?
      modifies this`attempts, this`tokens, this`nextToken
      ensures Valid() && View() == Step(config, old(View()), Exec(a))
      ensures issued <==> nextToken == old(nextToken) + 1
      ensures issued ==> Holds(View(), old(attempts[a].scope), old(attempts[a].holder))
      ensures |ActiveTokens(View(), old(attempts[a].scope))| <= config.quota
    {
      hide Inv;
      InvKept(config, View(), Exec(a));
      var x := attempts[a];
      InvAttempt(config, View(), a);
      InvQuota(config, Step(config, View(), Exec(a)), x.scope);
      attempts := attempts[a := x.(phase := Done)];
      if x.phase.rev != (if x.scope in revs then revs[x.scope] else 0) { return false; }
      tokens := tokens[nextToken := Token(x.scope, Some(x.nowMs + config.tokenTtl), false)];
      nextToken := nextToken + 1;
      issued := true;
    }

    /** The attempt's finally: compare-and-delete of the lock, which never takes another holder's lock. */
    method ReleaseDelegatedIssueLock(a: nat, release: bool)
      requires Valid() && a in attempts && !attempts[a].phase.Sent?
      modifies this`attempts, this`locks, this`revs
      ensures Valid() && View() == Step(config, old(View()), Abandon(a, release))
      ensures forall k :: k in old(locks) && old(locks[k].holder != attempts[a].holder) ==>
        k in locks && locks[k] == old(locks)[k]
      ensures release ==> !Holds(View(), old(attempts[a].scope), old(attempts[a].holder))
    {
      hide Inv;
      InvKept(config, View(), Abandon(a, release));
      var x := attempts[a];
      attempts := attempts - {a};
      if release && x.scope in locks && locks[x.scope].holder == x.holder {
        locks := locks - {x.scope};
        MoveRevision(x.scope);
      }
    }
  }
}
