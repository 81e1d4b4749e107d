/** The owner registry and the actor's admission path as they run: Redis keys and task state updated in place.
    Every method is one await-free stretch of the source, refines the step of that name and keeps generations
    increasing, leases within their TTL, budgets within the lease, and drained tasks idle. */
module OwnerRegistry {
  import opened Prelude
  import opened OwnerLease
  import opened OwnerProofs
  import opened OwnerTheorems

  predicate Safe(c: Config, s: State, moved: bool) {
    && Sane(c) && OwnerTheorems.Inv(c, s) && s.store.counter >= Top(s.store)
    && (!moved ==> NoMoves(s) && Budgets(c, s))
  }

  lemma SafeKept(c: Config, s: State, moved: bool, e: Event)
    requires Safe(c, s, moved) && !e.CounterLost?
    ensures Safe(c, Step(c, s, e), moved || Moves(e)) && s.store.log <= Step(c, s, e).store.log
  {
    InvKept(c, s, e);
    NewestKept(c, s, e);
    if !moved && !Moves(e) {
      NoMovesKept(c, s, e);
      BudgetsKept(c, s, e);
    }
  }

  /** EXEC never lowers the counter and commits at most one ownership, newer than all before it. */
  lemma SafeExec(c: Config, s: State, moved: bool, a: nat)
    requires Safe(c, s, moved)
    ensures var t := Step(c, s, Exec(a));
      && t.store.counter >= s.store.counter && s.store.log <= t.store.log && |t.store.log| <= |s.store.log| + 1
      && (t.store.log != s.store.log ==>
            && Matches(t.store.rec, Last(t.store.log))
            && forall i :: 0 <= i < |s.store.log| ==> s.store.log[i].gen < Last(t.store.log).gen)
  {
    if a in s.attempts && s.attempts[a].snap.Some? {
      assert AttemptOk(s.store, s.attempts[a]);
      CommitRaisesCounter(c, s.store, s.attempts[a]);
      if |Commit(c, s.store, s.attempts[a]).log| > |s.store.log| { ClaimIsFreshIff(c, s.store, s.attempts[a]); }
    }
  }

  /** SQL that passes its budget starts under the stored, unexpired, newest ownership. */
  lemma SafeStart(c: Config, s: State, q: nat)
    requires Safe(c, s, false) && MayStartSql(s, q) && s.queries[q].phase.made - s.queries[q].phase.at <= c.guard
    ensures var f := Fence(s.queries[q].task, s.queries[q].gen);
      Matches(s.store.rec, f) && s.store.now < s.store.rec.value.lease && s.store.log != [] && Last(s.store.log) == f
  {
    assert BudgetOk(c, s, s.queries[q]);
  }

  /** A drain that saw its task idle has no query of that task past admission. */
  lemma SafeDrain(c: Config, s: State, moved: bool, d: nat)
    requires Safe(c, s, moved) && d in s.drains && s.drains[d].wait == Idle
    ensures var f := s.drains[d].fence;
      && f.task in s.draining && (s.drains[d].raw.Some? ==> FenceOf(s.drains[d].raw.value) == f)
      && (forall q :: q in s.queries && s.queries[q].task == f.task ==> s.queries[q].phase.Admitted?)
  {
    assert DrainOk(s, s.drains[d]);
  }

  lemma ExecIs(c: Config, s: State, a: nat)
    ensures a !in s.attempts || s.attempts[a].snap.None? ==> Step(c, s, Exec(a)) == s
    ensures a in s.attempts && s.attempts[a].snap.Some? ==>
      var x := s.attempts[a];
      var plan := Plan(c, x.task, x.purpose, x.snap.value);
      Step(c, s, Exec(a)) == s.(attempts := s.attempts - {a},
        store := if plan.Some? && Clean(s.store, x) then Perform(c, s.store, plan.value) else s.store)
  {
  }

  class Registry {
    const config: Config
    var now: int
    var rec: Option<Owner>
    var dead: int
    var counter: nat
    var recRev: nat
    var counterRev: nat
    var log: seq<Fence>
    var attempts: map<nat, Attempt>
    var renewals: map<nat, Renewal>
    var queries: map<nat, Query>
    var draining: set<nat>
    var drains: map<nat, Drain>
    var offset: map<nat, int>
    ghost var moved: bool          // a rebalance was begun

    ghost predicate Valid()
      reads this
    {
      Safe(config, View(), moved)
    }

    constructor (c: Config)
      requires Sane(c)
      ensures Valid() && !moved && config == c
      ensures View() == State(Store(0, None, 0, 0, 0, 0, []), map[], map[], map[], {}, map[], map[])
    {
      config := c;
      now, rec, dead, counter, recRev, counterRev, log := 0, None, 0, 0, 0, 0, [];
      attempts, renewals, queries, draining, drains, offset := map[], map[], map[], {}, map[], map[];
      moved := false;
    }

    ghost function View(): State
      reads this
    {
      State(Store(now, rec, dead, counter, recRev, counterRev, log),
            attempts, renewals, queries, draining, drains, offset)
    }

    method PassTime(ms: nat)
      requires Valid()
      modifies this
      ensures Valid() && moved == old(moved) && View() == Step(config, old(View()), Tick(ms))
      ensures log == old(log) && (rec.Some? ==> rec == old(rec) && now < dead)
    {
      hide Safe, WatchStep, SnapStep, ExecStep, RenewReadStep, RenewCasStep, QueryStep, DrainStep;
      SafeKept(config, View(), moved, Tick(ms));
      now := now + ms;
      if rec.Some? && dead <= now { rec, recRev := None, recRev + 1; }
    }

    /** WATCH of the keys a claim, takeover, move or repair depends on. */
    method BeginSession(a: nat, task: nat, purpose: Purpose) returns (ok: bool)
      requires Valid()
      modifies this
      ensures Valid() && moved == (old(moved) || purpose.Rebalance?)
      ensures View() == Step(config, old(View()), Watch(a, task, purpose))
      ensures ok && !purpose.Repair? && !purpose.Rebalance? ==> task !in draining
      ensures !ok ==> View() == old(View())
    {
      hide Safe;
      SafeKept(config, View(), moved, Watch(a, task, purpose));
      moved := moved || purpose.Rebalance?;
      if a in attempts { return false; }
      if (purpose.Resolve? || purpose.Takeover?) && task in draining { return false; }
      if purpose.Repair? && Fence(task, purpose.gen) !in log { return false; }
      attempts := attempts[a := Attempt(task, purpose, recRev, counterRev, None)];
      ok := true;
    }

    method ReadSession(a: nat)
      requires Valid()
      modifies this
      ensures Valid() && moved == old(moved) && View() == Step(config, old(View()), Snap(a))
    {
      hide Safe;
      SafeKept(config, View(), moved, Snap(a));
      if a in attempts {
        attempts := attempts[a := attempts[a].(snap := Some(Snapshot(rec, counter, now)))];
      }
    }

    /** stageOwnerClaim and EXEC. */
    method WriteClaim(owner: Owner)
      modifies this`rec, this`dead, this`recRev, this`counter, this`counterRev, this`log
      ensures View() == old(View()).(store := Perform(config, old(View()).store, Claim(owner)))
    {
      counter, counterRev := owner.gen, counterRev + 1;
      rec, dead, recRev := Some(owner), now + config.ttl, recRev + 1;
      log := log + [FenceOf(owner)];
    }

    method StageClaim(task: nat, snap: Snapshot)
      modifies this`rec, this`dead, this`recRev, this`counter, this`counterRev, this`log
      ensures View() == old(View()).(store :=
        match ClaimFor(config, task, snap)
        case None => old(View()).store
        case Some(w) => Perform(config, old(View()).store, w))
    {
      hide LeaseAt, FenceOf, Perform;
      var previous := snap.counter;
      if snap.rec.Some? && snap.rec.value.gen > previous { previous := snap.rec.value.gen; }
      if previous >= MAX_SAFE_INTEGER { return; }
      WriteClaim(Owner(task, previous + 1, LeaseAt(config, snap.at)));
    }

    /** What a session stages on what it read, EXEC included. */
    method StagePlan(task: nat, purpose: Purpose, snap: Snapshot)
      modifies this`rec, this`dead, this`recRev, this`counter, this`counterRev, this`log
      ensures View() == old(View()).(store :=
        match Plan(config, task, purpose, snap)
        case None => old(View()).store
        case Some(w) => Perform(config, old(View()).store, w))
    {
      match purpose {
        case Resolve =>
          if snap.rec.None? { StageClaim(task, snap); }
        case Takeover(stale) =>
          if snap.rec.Some? && snap.rec.value.task == stale.task && snap.rec.value.gen == stale.gen
             && snap.rec.value.lease <= snap.at
          { StageClaim(task, snap); }
        case Rebalance(target) =>
          if snap.rec.None? || snap.rec.value.task != task { return; }
          if target.None? {
            rec, recRev := None, recRev + 1;
          } else if target.value != task {
            StageClaim(target.value, snap);
          }
        case Repair(gen) =>
          if snap.counter < gen { counter, counterRev := gen, counterRev + 1; }
      }
    }

    /** EXEC of a session: at most one ownership is committed, newer than all before it. */
    method ExecSession(a: nat)
      requires Valid()
      modifies this
      ensures Valid() && moved == old(moved) && View() == Step(config, old(View()), Exec(a))
      ensures old(log) <= log && |log| <= |old(log)| + 1 && counter >= old(counter)
      ensures log != old(log) ==> Matches(rec, Last(log)) && forall i :: 0 <= i < |old(log)| ==>
        old(log)[i].gen < Last(log).gen
    {
      hide Safe, Plan, Perform, Matches, Step;
      ExecIs(config, View(), a);
      SafeKept(config, View(), moved, Exec(a));
      SafeExec(config, View(), moved, a);
      if a !in attempts || attempts[a].snap.None? { return; }
      var attempt := attempts[a];
      attempts := attempts - {a};
      if attempt.counterRev != counterRev { return; }
      if !attempt.purpose.Repair? && attempt.recRev != recRev { return; }
      StagePlan(attempt.task, attempt.purpose, attempt.snap.value);
    }

    method BeginRenewal(r: nat, f: Fence)
      requires Valid()
      modifies this
      ensures Valid() && moved == old(moved) && View() == Step(config, old(View()), RenewRead(r, f))
    {
      hide Safe;
      SafeKept(config, View(), moved, RenewRead(r, f));
      if r in renewals || rec.None? || rec.value.task != f.task || rec.value.gen != f.gen { return; }
      if rec.value.lease <= now { return; }
      renewals := renewals[r := Renewal(rec.value, now)];
    }

    /** SET with IFEQ on the exact record that was read. */
    method CompareAndRenew(r: Renewal) returns (ok: bool)
      modifies this`rec, this`dead, this`recRev
      ensures View() == old(View()).(store := CasRenew(config, old(View()).store, r))
      ensures ok <==> old(rec) == Some(r.raw)
    {
      if rec != Some(r.raw) { return false; }
      rec, dead, recRev := Some(Owner(r.raw.task, r.raw.gen, LeaseAt(config, r.at))), now + config.ttl, recRev + 1;
      ok := true;
    }

    method FinishRenewal(r: nat) returns (ok: bool)
      requires Valid()
      modifies this
      ensures Valid() && moved == old(moved) && View() == Step(config, old(View()), RenewCas(r))
      ensures ok <==> r in old(renewals) && old(rec) == Some(old(renewals)[r].raw)
      ensures !ok ==> rec == old(rec)
    {
      hide Safe;
      SafeKept(config, View(), moved, RenewCas(r));
      if r !in renewals { return false; }
      var renewal := renewals[r];
      renewals := renewals - {r};
      ok := CompareAndRenew(renewal);
    }

    method BeginPendingQuery(q: nat, f: Fence)
      requires Valid()
      modifies this
      ensures Valid() && moved == old(moved) && View() == Step(config, old(View()), OnQuery(q, Admit(f)))
    {
      hide Safe;
      SafeKept(config, View(), moved, OnQuery(q, Admit(f)));
      if q !in queries { queries := queries[q := Query(f.task, f.gen, Admitted)]; }
    }

    method EndPendingQuery(q: nat)
      requires Valid()
      modifies this
      ensures Valid() && moved == old(moved) && View() == Step(config, old(View()), OnQuery(q, Finish))
      ensures q !in queries
    {
      hide Safe;
      SafeKept(config, View(), moved, OnQuery(q, Finish));
      if q in queries { queries := queries - {q}; }
    }

    method CheckDraining(q: nat)
      requires Valid()
      modifies this
      ensures Valid() && moved == old(moved) && View() == Step(config, old(View()), OnQuery(q, Check))
      ensures q in queries && old(q in queries && queries[q].phase.Admitted?) ==> queries[q].task !in draining
    {
      hide Safe;
      SafeKept(config, View(), moved, OnQuery(q, Check));
      if q !in queries || !queries[q].phase.Admitted? { return; }
      if queries[q].task in draining {
        queries := queries - {q};
      } else {
        queries := queries[q := queries[q].(phase := Checked)];
      }
    }

    method AssertCurrentOwner(q: nat)
      requires Valid()
      modifies this
      ensures Valid() && moved == old(moved) && View() == Step(config, old(View()), OnQuery(q, AssertOwner))
      ensures q in queries && queries[q].phase.Asserted? && !old(q in queries && queries[q].phase.Asserted?) ==>
        && Matches(rec, Fence(queries[q].task, queries[q].gen))
        && rec.value.lease == queries[q].phase.lease >= now + config.guard
    {
      hide Safe;
      SafeKept(config, View(), moved, OnQuery(q, AssertOwner));
      if q !in queries || !queries[q].phase.Checked? { return; }
      var query := queries[q];
      if rec.None? || rec.value.task != query.task || rec.value.gen != query.gen || rec.value.lease <= now {
        queries := queries - {q};
        return;
      }
      var remaining := rec.value.lease - now;
      queries := queries[q := query.(phase :=
        if remaining < config.guard then NeedsRenewal else Asserted(rec.value.lease, now))];
    }

    method RenewNearExpiryRead(q: nat)
      requires Valid()
      modifies this
      ensures Valid() && moved == old(moved) && View() == Step(config, old(View()), OnQuery(q, ReadRenewal))
    {
      hide Safe;
      SafeKept(config, View(), moved, OnQuery(q, ReadRenewal));
      if q !in queries || !queries[q].phase.NeedsRenewal? { return; }
      var query := queries[q];
      if rec.None? || rec.value.task != query.task || rec.value.gen != query.gen || rec.value.lease <= now {
        queries := queries - {q};
      } else {
        queries := queries[q := query.(phase := Renewing(Renewal(rec.value, now)))];
      }
    }

    method RenewNearExpiry(q: nat)
      requires Valid()
      modifies this
      ensures Valid() && moved == old(moved) && View() == Step(config, old(View()), OnQuery(q, CasRenewal))
      ensures q in queries && queries[q].phase.Asserted? && !old(q in queries && queries[q].phase.Asserted?) ==>
        rec.Some? && rec.value.lease == queries[q].phase.lease >= queries[q].phase.at + config.guard
    {
      hide Safe, WatchStep, SnapStep, ExecStep, RenewReadStep, DrainStep;
      SafeKept(config, View(), moved, OnQuery(q, CasRenewal));
      if q !in queries || !queries[q].phase.Renewing? { return; }
      var query := queries[q];
      var r := query.phase.renewal;
      var ok := CompareAndRenew(r);
      if !ok {
        queries := queries[q := query.(phase := NeedsRenewal)];
        return;
      }
      var lease := LeaseAt(config, r.at);
      if lease - r.at < config.guard {
        queries := queries - {q};
      } else {
        queries := queries[q := query.(phase := Asserted(lease, r.at))];
      }
    }

    method CreateLeaseBudgetGuard(q: nat)
      requires Valid()
      modifies this
      ensures Valid() && moved == old(moved) && View() == Step(config, old(View()), OnQuery(q, MakeGuard))
    {
      hide Safe;
      SafeKept(config, View(), moved, OnQuery(q, MakeGuard));
      if q !in queries || !queries[q].phase.Asserted? { return; }
      var query := queries[q];
      var budget := query.phase.lease - query.phase.at - config.guard;
      if budget < 0 { budget := 0; }
      var local := now + if query.task in offset then offset[query.task] else 0;
      queries := queries[q := query.(phase := Guarded(local + budget, query.phase.lease, query.phase.at, now))];
    }

    /** Whether the next SQL statement of query `q` may start. */
    method AssertLeaseBudget(q: nat) returns (ok: bool)
      requires Valid()
      ensures ok <==> MayStartSql(View(), q)
      ensures ok && !moved && queries[q].phase.made - queries[q].phase.at <= config.guard ==>
        && Matches(rec, Fence(queries[q].task, queries[q].gen)) && now < rec.value.lease
        && log != [] && Last(log) == Fence(queries[q].task, queries[q].gen)
    {
      hide Safe;
      if q !in queries || !queries[q].phase.Guarded? { return false; }
      var local := now + if queries[q].task in offset then offset[queries[q].task] else 0;
      ok := local < queries[q].phase.deadline;
      if ok && !moved && queries[q].phase.made - queries[q].phase.at <= config.guard { SafeStart(config, View(), q); }
    }

    method BeginDrain(d: nat, f: Fence)
      requires Valid()
      modifies this
      ensures Valid() && moved == old(moved) && View() == Step(config, old(View()), OnDrain(d, StartDrain(f)))
      ensures old(d !in drains) ==> f.task in draining
    {
      hide Safe;
      SafeKept(config, View(), moved, OnDrain(d, StartDrain(f)));
      if d in drains { return; }
      draining := draining + {f.task};
      drains := drains[d := Drain(f, Waiting, None)];
    }

    method HasPending(task: nat) returns (pending: bool)
      ensures pending <==> !NoPending(queries, task)
    {
      var rest := queries.Keys;
      while rest != {}
        invariant rest <= queries.Keys
        invariant forall q :: q in queries && q !in rest ==> queries[q].task != task
        decreases |rest|
      {
        var q :| q in rest;
        rest := rest - {q};
        if queries[q].task == task { return true; }
      }
      pending := false;
    }

    /** One poll of the idle wait: it ends idle, or timed out, or goes on. */
    method PollIdle(d: nat, timedOut: bool)
      requires Valid()
      modifies this`drains
      ensures Valid()
      ensures View() == if d in old(drains) && NoPending(queries, old(drains)[d].fence.task)
                        then Step(config, old(View()), OnDrain(d, IdleSeen))
                        else if timedOut then Step(config, old(View()), OnDrain(d, WaitFailed)) else old(View())
      ensures d in drains && drains[d].wait == Idle ==>
        forall q :: q in queries && queries[q].task == drains[d].fence.task ==> queries[q].phase.Admitted?
    {
      hide Safe;
      SafeKept(config, View(), moved, OnDrain(d, IdleSeen));
      SafeKept(config, View(), moved, OnDrain(d, WaitFailed));
      if d !in drains { return; }
      if drains[d].wait != Waiting {
        if drains[d].wait == Idle { SafeDrain(config, View(), moved, d); }
        return;
      }
      var pending := HasPending(drains[d].fence.task);
      if !pending {
        drains := drains[d := drains[d].(wait := Idle)];
      } else if timedOut {
        drains := drains[d := drains[d].(wait := TimedOut)];
      }
    }

    method ReadForRelease(d: nat)
      requires Valid()
      modifies this
      ensures Valid() && moved == old(moved) && View() == Step(config, old(View()), OnDrain(d, ReleaseRead))
    {
      hide Safe;
      SafeKept(config, View(), moved, OnDrain(d, ReleaseRead));
      if d !in drains || drains[d].wait != Idle || rec.None? { return; }
      if rec.value.task == drains[d].fence.task && rec.value.gen == drains[d].fence.gen {
        drains := drains[d := drains[d].(raw := rec)];
      }
    }

    /** compare-and-delete: only the record of a task that the drain saw idle goes. */
    method DeleteIfUnchanged(d: nat)
      requires Valid()
      modifies this
      ensures Valid() && moved == old(moved) && View() == Step(config, old(View()), OnDrain(d, ReleaseDel))
      ensures rec != old(rec) ==>
        && old(rec).Some? && rec.None? && old(rec).value.task in draining
        && forall q :: q in queries && queries[q].task == old(rec).value.task ==> queries[q].phase.Admitted?
    {
      hide Safe;
      SafeKept(config, View(), moved, OnDrain(d, ReleaseDel));
      if d !in drains || drains[d].wait != Idle || drains[d].raw.None? { return; }
      SafeDrain(config, View(), moved, d);
      if rec == drains[d].raw { rec, recRev := None, recRev + 1; }
    }
  }
}
