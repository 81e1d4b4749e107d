/** Single writer, fresh generations and safe drains, over every run. */
module OwnerTheorems {
  import opened Prelude
  import opened OwnerLease
  import opened OwnerProofs

  // ---- Drain: idle means idle for good ----

  predicate DrainOk(s: State, d: Drain) {
    && d.fence.task in s.draining
    && (d.raw.Some? ==> FenceOf(d.raw.value) == d.fence && d.wait == Idle)
    && (d.wait == Idle ==>
          forall q :: q in s.queries && s.queries[q].task == d.fence.task ==> s.queries[q].phase.Admitted?)
  }

  predicate Drains(s: State) {
    forall d :: d in s.drains ==> DrainOk(s, s.drains[d])
  }

  lemma DrainingStays(c: Config, s: State, e: Event)
    ensures s.draining <= Step(c, s, e).draining
  {
  }

  lemma QueriesStayOut(c: Config, s: State, e: Event, task: nat)
    requires task in s.draining
    requires forall q :: q in s.queries && s.queries[q].task == task ==> s.queries[q].phase.Admitted?
    ensures task in Step(c, s, e).draining
    ensures forall q :: q in Step(c, s, e).queries && Step(c, s, e).queries[q].task == task ==>
              Step(c, s, e).queries[q].phase.Admitted?
  {
  }

  lemma OwnDrain(s: State, d: nat, e: DrainEvent)
    requires (d in s.drains ==> DrainOk(s, s.drains[d])) && d in DrainStep(s, d, e).drains
    ensures DrainOk(DrainStep(s, d, e), DrainStep(s, d, e).drains[d])
  {
  }

  lemma OtherDrain(c: Config, s: State, e: Event, d: nat)
    requires d in s.drains && DrainOk(s, s.drains[d])
    ensures DrainOk(Step(c, s, e), s.drains[d])
  {
    DrainingStays(c, s, e);
    if s.drains[d].wait == Idle { QueriesStayOut(c, s, e, s.drains[d].fence.task); }
  }

  lemma OtherDrainStays(c: Config, s: State, e: Event, d: nat)
    requires d in Step(c, s, e).drains && !(e.OnDrain? && e.d == d)
    ensures d in s.drains && Step(c, s, e).drains[d] == s.drains[d]
  {
  }

  lemma DrainsKept(c: Config, s: State, e: Event)
    requires Drains(s)
    ensures Drains(Step(c, s, e))
  {
    var t := Step(c, s, e);
    forall d | d in t.drains ensures DrainOk(t, t.drains[d]) {
      if e.OnDrain? && e.d == d { OwnDrain(s, d, e.drain); }
      else { OtherDrainStays(c, s, e, d); OtherDrain(c, s, e, d); }
    }
  }

  // ---- The lease budget ----

  /** Until `lease`, the stored record is this ownership with at least that lease. */
  predicate Held(st: Store, f: Fence, lease: int) {
    st.now < lease ==> Matches(st.rec, f) && st.rec.value.lease >= lease
  }

  predicate BudgetOk(c: Config, s: State, q: Query) {
    var f := Fence(q.task, q.gen);
    match q.phase
    case Asserted(lease, at) => at <= s.store.now && Held(s.store, f, lease)
    case Guarded(deadline, lease, at, made) =>
      && at <= made <= s.store.now && Held(s.store, f, lease)
      && deadline - (LocalNow(s, q.task) - s.store.now) == made + Max(0, lease - at - c.guard)
    case Renewing(r) => FenceOf(r.raw) == f
    case _ => true
  }

  predicate Budgets(c: Config, s: State) {
    forall q :: q in s.queries ==> BudgetOk(c, s, s.queries[q])
  }

  predicate NoMoves(s: State) {
    forall a :: a in s.attempts ==> !s.attempts[a].purpose.Rebalance?
  }

  lemma HeldThroughCommit(c: Config, st: Store, a: Attempt, f: Fence, lease: int)
    requires AttemptOk(st, a) && a.snap.Some? && !a.purpose.Rebalance? && Held(st, f, lease)
    ensures Held(Commit(c, st, a), f, lease)
  {
  }

  lemma HeldThroughRenewal(c: Config, st: Store, r: Renewal, f: Fence, lease: int)
    requires RenewalOk(c, st, r) && Held(st, f, lease)
    ensures Held(CasRenew(c, st, r), f, lease)
  {
  }

  /** Only moves, or a drain of the ownership's own task, end it before its lease does. */
  lemma HeldKept(c: Config, s: State, e: Event, f: Fence, lease: int)
    requires Sane(c) && Sessions(c, s) && NoMoves(s) && Drains(s) && Held(s.store, f, lease)
    requires forall d :: d in s.drains && s.drains[d].wait == Idle ==> s.drains[d].fence.task != f.task
    ensures Held(Step(c, s, e).store, f, lease)
  {
    match e
    case Exec(a) =>
      if a in s.attempts && s.attempts[a].snap.Some? { HeldThroughCommit(c, s.store, s.attempts[a], f, lease); }
    case RenewCas(r) =>
      if r in s.renewals { HeldThroughRenewal(c, s.store, s.renewals[r], f, lease); }
    case OnQuery(q, _) =>
      if q in s.queries && s.queries[q].phase.Renewing? {
        assert PhaseOk(c, s.store, s.queries[q].phase);
        HeldThroughRenewal(c, s.store, s.queries[q].phase.renewal, f, lease);
      }
    case OnDrain(d, _) =>
      if d in s.drains { assert DrainOk(s, s.drains[d]); }
    case _ =>
  }

  predicate Working(q: Query) {
    !q.phase.Admitted?
  }

  lemma WorkingTaskIsNotIdle(s: State, q: nat)
    requires Drains(s) && q in s.queries && Working(s.queries[q])
    ensures forall d :: d in s.drains && s.drains[d].wait == Idle ==> s.drains[d].fence.task != s.queries[q].task
  {
    forall d | d in s.drains && s.drains[d].wait == Idle
      ensures s.drains[d].fence.task != s.queries[q].task
    {
      assert DrainOk(s, s.drains[d]);
    }
  }

  /** The step a query itself takes. */
  lemma OwnBudget(c: Config, s: State, q: nat, e: QueryEvent)
    requires q in QueryStep(c, s, q, e).queries
    requires q in s.queries ==> PhaseOk(c, s.store, s.queries[q].phase) && BudgetOk(c, s, s.queries[q])
    ensures BudgetOk(c, QueryStep(c, s, q, e), QueryStep(c, s, q, e).queries[q])
  {
  }

  lemma OffsetsFixed(c: Config, s: State, e: Event)
    ensures Step(c, s, e).offset == s.offset
  {
  }

  lemma OthersBudget(c: Config, s: State, e: Event, q: nat)
    requires Sane(c) && Sessions(c, s) && NoMoves(s) && Drains(s) && Budgets(c, s)
    requires q in s.queries && (e.OnQuery? ==> e.q != q)
    ensures BudgetOk(c, Step(c, s, e), s.queries[q])
  {
    var query := s.queries[q];
    assert BudgetOk(c, s, query);
    StoreAdvances(c, s, e);
    OffsetsFixed(c, s, e);
    if query.phase.Asserted? || query.phase.Guarded? {
      WorkingTaskIsNotIdle(s, q);
      HeldKept(c, s, e, Fence(query.task, query.gen), query.phase.lease);
    }
  }

  lemma BudgetsKept(c: Config, s: State, e: Event)
    requires Sane(c) && Sessions(c, s) && NoMoves(s) && Drains(s) && Budgets(c, s)
    ensures Budgets(c, Step(c, s, e))
  {
    var t := Step(c, s, e);
    forall q | q in t.queries ensures BudgetOk(c, t, t.queries[q]) {
      if e.OnQuery? && e.q == q { OwnBudget(c, s, q, e.query); } else { OthersBudget(c, s, e, q); }
    }
  }

  // ---- Runs ----

  /** No client is at work; the record, if any, is the one ownership committed so far. */
  predicate Init(c: Config, s: State) {
    && s.attempts == map[] && s.renewals == map[] && s.queries == map[] && s.drains == map[] && s.draining == {}
    && RecordOk(c, s.store)
    && s.store.log == (if s.store.rec.Some? then [FenceOf(s.store.rec.value)] else [])
    && s.store.counter >= Top(s.store) && Bounded(s.store)
  }

  predicate Moves(e: Event) {
    e.Watch? && e.purpose.Rebalance?
  }

  predicate Inv(c: Config, s: State) {
    Sessions(c, s) && Drains(s) && Newest(s.store) && Bounded(s.store)
  }

  lemma InvKept(c: Config, s: State, e: Event)
    requires Sane(c) && Inv(c, s) && !Stranded(s.store)
    ensures Inv(c, Step(c, s, e)) && s.store.log <= Step(c, s, e).store.log
  {
    SessionsKept(c, s, e);
    DrainsKept(c, s, e);
    NewestKept(c, s, e);
    BoundedKept(c, s, e);
    LogGrows(c, s, e);
  }

  lemma LogGrows(c: Config, s: State, e: Event)
    ensures s.store.log <= Step(c, s, e).store.log
  {
  }

  /** No step of the run is taken from a store that has forgotten the newest generation. */
  predicate Remembered(c: Config, s: State, es: seq<Event>)
    decreases |es|
  {
    es == [] || (!Stranded(s.store) && Remembered(c, Step(c, s, es[0]), es[1..]))
  }

  lemma {:induction false} InvAlong(c: Config, s: State, es: seq<Event>)
    requires Sane(c) && Inv(c, s) && Remembered(c, s, es)
    ensures Inv(c, Run(c, s, es)) && s.store.log <= Run(c, s, es).store.log
    decreases |es|
  {
    if es != [] {
      InvKept(c, s, es[0]);
      InvAlong(c, Step(c, s, es[0]), es[1..]);
    }
  }

  /** Generation freshness: over claims, takeovers, moves, releases, expiry, lost counters and repairs, as long as
      no step is taken with the record gone and the counter behind, every ownership has a generation above all
      earlier ones and the stored record is the newest. */
  lemma GenerationsIncrease(c: Config, s: State, es: seq<Event>)
    requires Sane(c) && Init(c, s) && Remembered(c, s, es)
    ensures var st := Run(c, s, es).store;
      Increasing(st.log) && (st.rec.Some? ==> st.log != [] && FenceOf(st.rec.value) == Last(st.log))
  {
    InvAlong(c, s, es);
  }

  /** Once a later ownership is committed, an earlier fence never matches the record again. */
  lemma SupersededFenceStaysOut(c: Config, s: State, before: seq<Event>, after: seq<Event>, i: nat)
    requires Sane(c) && Init(c, s) && Remembered(c, s, before) && Remembered(c, Run(c, s, before), after)
    requires i + 1 < |Run(c, s, before).store.log|
    ensures !Matches(Run(c, Run(c, s, before), after).store.rec, Run(c, s, before).store.log[i])
  {
    var m := Run(c, s, before);
    InvAlong(c, s, before);
    InvAlong(c, m, after);
    var st := Run(c, m, after).store;
    assert m.store.log[i] == st.log[i];
    assert st.log[i].gen < st.log[|st.log| - 1].gen;
  }

  predicate NoLoss(es: seq<Event>) {
    forall i :: 0 <= i < |es| ==> !es[i].CounterLost?
  }

  /** While the counter is not lost it stays at or above the newest generation, so the run is remembered. */
  lemma {:induction false} CounterRemembers(c: Config, s: State, es: seq<Event>)
    requires Sane(c) && Inv(c, s) && s.store.counter >= Top(s.store) && NoLoss(es)
    ensures Remembered(c, s, es)
    decreases |es|
  {
    if es != [] {
      InvKept(c, s, es[0]);
      NewestKept(c, s, es[0]);
      CounterRemembers(c, Step(c, s, es[0]), es[1..]);
    }
  }

  predicate Writing(c: Config, s: State) {
    Sessions(c, s) && Drains(s) && NoMoves(s) && Budgets(c, s)
  }

  predicate Quiet(es: seq<Event>) {
    forall i :: 0 <= i < |es| ==> !Moves(es[i])
  }

  lemma NoMovesKept(c: Config, s: State, e: Event)
    requires NoMoves(s) && !Moves(e)
    ensures NoMoves(Step(c, s, e))
  {
  }

  lemma {:induction false} WritingAlong(c: Config, s: State, es: seq<Event>)
    requires Sane(c) && Writing(c, s) && Quiet(es)
    ensures Writing(c, Run(c, s, es))
    decreases |es|
  {
    if es != [] {
      SessionsKept(c, s, es[0]);
      DrainsKept(c, s, es[0]);
      NoMovesKept(c, s, es[0]);
      BudgetsKept(c, s, es[0]);
      WritingAlong(c, Step(c, s, es[0]), es[1..]);
    }
  }

  /** Single writer: when the guard was made within `guard` of the owner read, every SQL start that passes the
      budget happens before the stored lease ends, under the stored ownership, and under the newest generation
      while generations are remembered. */
  lemma SingleWriter(c: Config, s: State, es: seq<Event>, q: nat)
    requires Sane(c) && Init(c, s) && Quiet(es) && MayStartSql(Run(c, s, es), q)
    requires var p := Run(c, s, es).queries[q].phase; p.made - p.at <= c.guard
    ensures var t := Run(c, s, es);
      && t.store.rec.Some? && FenceOf(t.store.rec.value) == Fence(t.queries[q].task, t.queries[q].gen)
      && t.store.now < t.store.rec.value.lease
      && (Remembered(c, s, es) ==> t.store.log != [] && Last(t.store.log) == Fence(t.queries[q].task, t.queries[q].gen))
  {
    WritingAlong(c, s, es);
    if Remembered(c, s, es) { InvAlong(c, s, es); }
    assert BudgetOk(c, Run(c, s, es), Run(c, s, es).queries[q]);
  }

  /** Two tasks never start SQL at the same moment. */
  lemma NoTwoWriters(c: Config, s: State, es: seq<Event>, q: nat, r: nat)
    requires Sane(c) && Init(c, s) && Quiet(es)
    requires MayStartSql(Run(c, s, es), q) && MayStartSql(Run(c, s, es), r)
    requires var p := Run(c, s, es).queries[q].phase; p.made - p.at <= c.guard
    requires var p := Run(c, s, es).queries[r].phase; p.made - p.at <= c.guard
    ensures Run(c, s, es).queries[q].task == Run(c, s, es).queries[r].task
    ensures Run(c, s, es).queries[q].gen == Run(c, s, es).queries[r].gen
  {
    SingleWriter(c, s, es, q);
    SingleWriter(c, s, es, r);
  }

  /** Drain safety: once a drain has seen its task idle, that task starts no SQL again. */
  lemma {:induction false} DrainedTaskStaysIdle(c: Config, s: State, es: seq<Event>, d: nat, q: nat)
    requires Drains(s) && d in s.drains && s.drains[d].wait == Idle
    requires q in Run(c, s, es).queries && Run(c, s, es).queries[q].task == s.drains[d].fence.task
    ensures Run(c, s, es).queries[q].phase.Admitted? && !MayStartSql(Run(c, s, es), q)
    decreases |es|
  {
    if es == [] {
      assert DrainOk(s, s.drains[d]);
    } else {
      DrainsKept(c, s, es[0]);
      IdleStays(c, s, es[0], d);
      DrainedTaskStaysIdle(c, Step(c, s, es[0]), es[1..], d, q);
    }
  }

  lemma IdleStays(c: Config, s: State, e: Event, d: nat)
    requires d in s.drains
    ensures d in Step(c, s, e).drains && Step(c, s, e).drains[d].fence == s.drains[d].fence
    ensures s.drains[d].wait != Waiting ==> Step(c, s, e).drains[d].wait == s.drains[d].wait
  {
  }

  lemma RemovalIsRelease(c: Config, s: State, e: Event)
    requires NoMoves(s) && s.store.rec.Some? && Step(c, s, e).store.rec.None? && !e.Tick?
    ensures e.OnDrain? && e.drain.ReleaseDel? && e.d in s.drains
    ensures s.drains[e.d].wait == Idle && s.drains[e.d].raw == s.store.rec
  {
  }

  /** A record goes before its TTL only by a move or by a drain that saw its task idle; a drain whose
      wait timed out never removes it. */
  lemma ReleasedOnlyWhenIdle(c: Config, s: State, e: Event)
    requires Drains(s) && NoMoves(s) && s.store.rec.Some? && Step(c, s, e).store.rec.None? && !e.Tick?
    ensures e.OnDrain? && e.drain.ReleaseDel? && e.d in s.drains
    ensures var f := FenceOf(s.store.rec.value);
      && s.drains[e.d].wait == Idle && s.drains[e.d].fence == f && f.task in s.draining
      && (forall q :: q in s.queries && s.queries[q].task == f.task ==> s.queries[q].phase.Admitted?)
  {
    RemovalIsRelease(c, s, e);
    assert DrainOk(s, s.drains[e.d]);
  }

  // ---- The conditions are exact ----

  lemma RunOne(c: Config, s: State, e: Event, rest: seq<Event>)
    ensures Run(c, s, [e] + rest) == Run(c, Step(c, s, e), rest)
  {
    assert ([e] + rest)[1..] == rest;
  }

  function Unowned(now: int, counter: nat): State {
    State(Store(now, None, 0, counter, 0, 0, []), map[], map[], map[], {}, map[], map[])
  }

  function Claiming(task: nat): seq<Event> {
    [Watch(task, task, Resolve)] + ([Snap(task)] + [Exec(task)])
  }

  /** An undisturbed claim of an unowned database commits, one generation above the counter. */
  lemma ClaimSucceeds(c: Config, s: State, task: nat)
    requires s.store.rec.None? && task !in s.attempts && task !in s.draining && s.store.counter < MAX_SAFE_INTEGER
    ensures var owner := Owner(task, s.store.counter + 1, LeaseAt(c, s.store.now));
      Run(c, s, Claiming(task)) == s.(
        attempts := s.attempts - {task},
        store := Perform(c, s.store, Claim(owner)))
  {
    var s1 := Step(c, s, Watch(task, task, Resolve));
    var s2 := Step(c, s1, Snap(task));
    RunOne(c, s, Watch(task, task, Resolve), [Snap(task)] + [Exec(task)]);
    RunOne(c, s1, Snap(task), [Exec(task)]);
    RunOne(c, s2, Exec(task), []);
    assert s2.attempts - {task} == s.attempts - {task};
  }

  /** Task 1 claims and reads its ownership, then makes the guard `delay` ms later. */
  function SlowGuard(q: nat, delay: nat): seq<Event> {
    [OnQuery(q, Admit(Fence(1, 1)))] + ([OnQuery(q, Check)] + ([OnQuery(q, AssertOwner)]
      + ([Tick(delay)] + [OnQuery(q, MakeGuard)])))
  }

  lemma SlowGuardRuns(c: Config, s: State, q: nat, delay: nat)
    requires q !in s.queries && 1 !in s.draining && 1 !in s.offset
    requires Matches(s.store.rec, Fence(1, 1)) && s.store.rec.value.lease - s.store.now >= c.guard
    requires s.store.now < s.store.rec.value.lease && s.store.now + delay < s.store.dead
    ensures var lease, at := s.store.rec.value.lease, s.store.now;
      Run(c, s, SlowGuard(q, delay)) == s.(
        store := s.store.(now := at + delay),
        queries := s.queries[q := Query(1, 1, Guarded(delay + lease - c.guard, lease, at, at + delay))])
  {
    var s1 := Step(c, s, OnQuery(q, Admit(Fence(1, 1))));
    var s2 := Step(c, s1, OnQuery(q, Check));
    var s3 := Step(c, s2, OnQuery(q, AssertOwner));
    var s4 := Step(c, s3, Tick(delay));
    var es4 := [OnQuery(q, MakeGuard)];
    var es3 := [Tick(delay)] + es4;
    var es2 := [OnQuery(q, AssertOwner)] + es3;
    RunOne(c, s, OnQuery(q, Admit(Fence(1, 1))), [OnQuery(q, Check)] + es2);
    RunOne(c, s1, OnQuery(q, Check), es2);
    RunOne(c, s2, OnQuery(q, AssertOwner), es3);
    RunOne(c, s3, Tick(delay), es4);
    RunOne(c, s4, OnQuery(q, MakeGuard), []);
  }

  /** The delay bound is exact: when the guard is made later than `guard` after the read, a query of
      the lapsed owner starts SQL although another task has already claimed the database. */
  lemma StaleStartIffDelayExceedsGuard(c: Config, delay: nat)
    requires Sane(c) && c.guard <= c.ttl <= MAX_SAFE_INTEGER && delay < c.ttl
    ensures var a := Run(c, Unowned(0, 0), Claiming(1));
      var b := Step(c, Run(c, a, SlowGuard(7, delay)), Tick(c.ttl - delay));
      var t := Run(c, b, Claiming(2));
      && Init(c, Unowned(0, 0)) && t.store.log == [Fence(1, 1), Fence(2, 2)]
      && Matches(t.store.rec, Fence(2, 2)) && 7 in t.queries && t.queries[7].task == 1
      && (MayStartSql(t, 7) <==> delay > c.guard)
  {
    ClaimSucceeds(c, Unowned(0, 0), 1);
    var a := Run(c, Unowned(0, 0), Claiming(1));
    SlowGuardRuns(c, a, 7, delay);
    var b := Step(c, Run(c, a, SlowGuard(7, delay)), Tick(c.ttl - delay));
    ClaimSucceeds(c, b, 2);
  }

  lemma WatchAndSnapLeaveStore(c: Config, s: State, a: nat, task: nat, purpose: Purpose)
    ensures Step(c, s, Watch(a, task, purpose)).store == s.store && Step(c, s, Snap(a)).store == s.store
  {
  }

  /** A claim made now takes a fresh generation exactly when the store has not forgotten the newest one. */
  lemma NextClaimIsFreshIff(c: Config, s: State, es: seq<Event>, task: nat)
    requires Sane(c) && Init(c, s) && Remembered(c, s, es)
    requires var m := Run(c, s, es); task !in m.attempts && task !in m.draining
    ensures Increasing(Run(c, Run(c, s, es), Claiming(task)).store.log) <==> !Stranded(Run(c, s, es).store)
  {
    var m := Run(c, s, es);
    InvAlong(c, s, es);
    if Stranded(m.store) {
      StrandedClaimRepeats(c, m, task);
    } else {
      var m1 := Step(c, m, Watch(task, task, Resolve));
      var m2 := Step(c, m1, Snap(task));
      WatchAndSnapLeaveStore(c, m, task, task, Resolve);
      WatchAndSnapLeaveStore(c, m1, task, task, Resolve);
      InvKept(c, m, Watch(task, task, Resolve));
      InvKept(c, m1, Snap(task));
      InvKept(c, m2, Exec(task));
      RunOne(c, m, Watch(task, task, Resolve), [Snap(task)] + [Exec(task)]);
      RunOne(c, m1, Snap(task), [Exec(task)]);
      RunOne(c, m2, Exec(task), []);
    }
  }

  lemma StrandedClaimRepeats(c: Config, m: State, task: nat)
    requires Stranded(m.store) && Bounded(m.store) && task !in m.attempts && task !in m.draining
    ensures !Increasing(Run(c, m, Claiming(task)).store.log)
  {
    var n := |m.store.log| - 1;
    assert m.store.log[n].gen == Top(m.store) <= MAX_SAFE_INTEGER;
    ClaimSucceeds(c, m, task);
    var log := Run(c, m, Claiming(task)).store.log;
    assert log[n] == m.store.log[n] && log[n + 1].gen == m.store.counter + 1;
  }

  ghost predicate StaysFresh(c: Config, s: State) {
    forall es :: NoLoss(es) ==> Increasing(Run(c, s, es).store.log)
  }

  lemma FullCounterStaysFresh(c: Config, m: State)
    requires Sane(c) && Inv(c, m) && m.store.counter >= Top(m.store)
    ensures StaysFresh(c, m)
  {
    forall es | NoLoss(es) ensures Increasing(Run(c, m, es).store.log) {
      CounterRemembers(c, m, es);
      InvAlong(c, m, es);
    }
  }

  /** The record lapses before the counter is repaired, and the next claim repeats a generation. */
  lemma LaggingCounterRepeats(c: Config, m: State, task: nat) returns (es: seq<Event>)
    requires RecordOk(c, m.store) && Bounded(m.store) && m.store.counter < Top(m.store)
    requires task !in m.attempts && task !in m.draining
    ensures NoLoss(es) && !Increasing(Run(c, m, es).store.log)
  {
    var ms := if m.store.rec.Some? then m.store.dead - m.store.now else 0;
    var n := Step(c, m, Tick(ms));
    StrandedClaimRepeats(c, n, task);
    RunOne(c, m, Tick(ms), Claiming(task));
    es := [Tick(ms)] + Claiming(task);
  }

  /** What a lost counter costs, exactly: from any state a remembered run leads to, generations increase over every
      further run that loses no counter if and only if the counter is at least the newest generation. */
  lemma GenerationsStayFreshIff(c: Config, s: State, es: seq<Event>)
    requires Sane(c) && Init(c, s) && Remembered(c, s, es)
    ensures StaysFresh(c, Run(c, s, es)) <==> Run(c, s, es).store.counter >= Top(Run(c, s, es).store)
  {
    var m := Run(c, s, es);
    InvAlong(c, s, es);
    if m.store.counter >= Top(m.store) {
      FullCounterStaysFresh(c, m);
    } else {
      var task := FreshNumber(m.attempts.Keys + m.draining);
      var more := LaggingCounterRepeats(c, m, task);
    }
  }

  /** Without the counter, a record that lapses takes its generation with it: the next claim repeats it. */
  lemma LostCounterRepeatsGeneration(c: Config)
    requires Sane(c) && c.ttl <= MAX_SAFE_INTEGER
    ensures var a := Run(c, Unowned(0, 0), Claiming(1));
      var b := Step(c, Step(c, a, CounterLost(0)), Tick(c.ttl));
      Run(c, b, Claiming(2)).store.log == [Fence(1, 1), Fence(2, 1)] && Stranded(b.store)
  {
    ClaimSucceeds(c, Unowned(0, 0), 1);
    var a := Run(c, Unowned(0, 0), Claiming(1));
    var b := Step(c, Step(c, a, CounterLost(0)), Tick(c.ttl));
    ClaimSucceeds(c, b, 2);
  }

  /** On every run, whatever was lost before, an EXEC never lowers the counter, and a repair whose session was not
      overtaken brings it to the generation it repairs and changes nothing else in the store. */
  lemma {:induction false} RepairRestoresCounter(c: Config, s: State, es: seq<Event>, a: nat)
    requires Sane(c) && Sessions(c, s) && a in Run(c, s, es).attempts && Run(c, s, es).attempts[a].snap.Some?
    ensures var m, t := Run(c, s, es), Step(c, Run(c, s, es), Exec(a));
      && t.store.counter >= m.store.counter
      && (m.attempts[a].purpose.Repair? ==> t.store.rec == m.store.rec && t.store.log == m.store.log)
      && (m.attempts[a].purpose.Repair? && m.attempts[a].counterRev == m.store.counterRev ==>
            t.store.counter >= m.attempts[a].purpose.gen)
    decreases |es|
  {
    if es == [] {
      CommitRaisesCounter(c, s.store, s.attempts[a]);
    } else {
      SessionsKept(c, s, es[0]);
      RepairRestoresCounter(c, Step(c, s, es[0]), es[1..], a);
    }
  }
}
