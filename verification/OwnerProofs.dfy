/** What the owner lease protocol keeps at every step. */
module OwnerProofs {
  import opened Prelude
  import opened OwnerLease

  // ---- Records, sessions and renewals ----

  predicate RecordOk(c: Config, st: Store) {
    st.rec.Some? ==> st.now < st.dead && st.rec.value.lease <= st.dead && st.rec.value.lease <= LeaseAt(c, st.now)
  }

  /** A session whose watched keys are untouched read what is stored now. */
  predicate AttemptOk(st: Store, a: Attempt) {
    && a.recRev <= st.recRev && a.counterRev <= st.counterRev
    && (a.snap.Some? ==>
          && a.snap.value.at <= st.now
          && (a.recRev == st.recRev ==> a.snap.value.rec == st.rec)
          && (a.counterRev == st.counterRev ==> a.snap.value.counter == st.counter))
  }

  predicate RenewalOk(c: Config, st: Store, r: Renewal) {
    r.at <= st.now && r.at < r.raw.lease <= LeaseAt(c, r.at)
  }

  predicate PhaseOk(c: Config, st: Store, p: Phase) {
    p.Renewing? ==> RenewalOk(c, st, p.renewal)
  }

  predicate Sessions(c: Config, s: State) {
    && RecordOk(c, s.store)
    && (forall a :: a in s.attempts ==> AttemptOk(s.store, s.attempts[a]))
    && (forall r :: r in s.renewals ==> RenewalOk(c, s.store, s.renewals[r]))
    && (forall q :: q in s.queries ==> PhaseOk(c, s.store, s.queries[q].phase))
  }

  /** How Redis may change: time and revisions grow, and a change moves its revision. */
  predicate Advances(st: Store, st': Store) {
    && st.now <= st'.now && st.recRev <= st'.recRev && st.counterRev <= st'.counterRev
    && (st.recRev == st'.recRev ==> st'.rec == st.rec)
    && (st.counterRev == st'.counterRev ==> st'.counter == st.counter)
  }

  lemma CommitAdvances(c: Config, st: Store, a: Attempt)
    requires Sane(c) && RecordOk(c, st) && AttemptOk(st, a) && a.snap.Some?
    ensures Advances(st, Commit(c, st, a)) && RecordOk(c, Commit(c, st, a))
  {
  }

  lemma CasAdvances(c: Config, st: Store, r: Renewal)
    requires Sane(c) && RecordOk(c, st) && RenewalOk(c, st, r)
    ensures Advances(st, CasRenew(c, st, r)) && RecordOk(c, CasRenew(c, st, r))
  {
  }

  lemma StoreAdvances(c: Config, s: State, e: Event)
    requires Sane(c) && Sessions(c, s)
    ensures Advances(s.store, Step(c, s, e).store) && RecordOk(c, Step(c, s, e).store)
  {
    match e
    case Exec(a) =>
      if a in s.attempts && s.attempts[a].snap.Some? { CommitAdvances(c, s.store, s.attempts[a]); }
    case RenewCas(r) =>
      if r in s.renewals { CasAdvances(c, s.store, s.renewals[r]); }
    case OnQuery(q, _) =>
      if q in s.queries && s.queries[q].phase.Renewing? { CasAdvances(c, s.store, s.queries[q].phase.renewal); }
    case _ =>
  }

  lemma OthersLeaveAttempts(c: Config, s: State, e: Event, a: nat)
    requires !e.Watch? && !e.Snap? && a in Step(c, s, e).attempts
    ensures a in s.attempts && Step(c, s, e).attempts[a] == s.attempts[a]
  {
  }

  lemma AttemptKept(c: Config, s: State, e: Event, a: nat)
    requires a in s.attempts ==> AttemptOk(s.store, s.attempts[a])
    requires Advances(s.store, Step(c, s, e).store) && a in Step(c, s, e).attempts
    ensures AttemptOk(Step(c, s, e).store, Step(c, s, e).attempts[a])
  {
    if !e.Watch? && !e.Snap? { OthersLeaveAttempts(c, s, e, a); }
  }

  lemma RenewalKept(c: Config, s: State, e: Event, r: nat)
    requires RecordOk(c, s.store) && (r in s.renewals ==> RenewalOk(c, s.store, s.renewals[r]))
    requires Advances(s.store, Step(c, s, e).store) && r in Step(c, s, e).renewals
    ensures RenewalOk(c, Step(c, s, e).store, Step(c, s, e).renewals[r])
  {
  }

  lemma PhaseKept(c: Config, s: State, e: Event, q: nat)
    requires RecordOk(c, s.store) && (q in s.queries ==> PhaseOk(c, s.store, s.queries[q].phase))
    requires Advances(s.store, Step(c, s, e).store) && q in Step(c, s, e).queries
    ensures PhaseOk(c, Step(c, s, e).store, Step(c, s, e).queries[q].phase)
  {
  }

  lemma SessionsKept(c: Config, s: State, e: Event)
    requires Sane(c) && Sessions(c, s)
    ensures Sessions(c, Step(c, s, e))
  {
    var t := Step(c, s, e);
    StoreAdvances(c, s, e);
    forall a | a in t.attempts ensures AttemptOk(t.store, t.attempts[a]) { AttemptKept(c, s, e, a); }
    forall r | r in t.renewals ensures RenewalOk(c, t.store, t.renewals[r]) { RenewalKept(c, s, e, r); }
    forall q | q in t.queries ensures PhaseOk(c, t.store, t.queries[q].phase) { PhaseKept(c, s, e, q); }
  }

  // ---- Generations ----

  function Top(st: Store): nat {
    if st.log == [] then 0 else Last(st.log).gen
  }

  predicate Increasing(log: seq<Fence>) {
    forall i, j :: 0 <= i < j < |log| ==> log[i].gen < log[j].gen
  }

  /** Generations grow, and the stored record is the newest ownership. */
  predicate Newest(st: Store) {
    && Increasing(st.log)
    && (st.rec.Some? ==> st.log != [] && FenceOf(st.rec.value) == Last(st.log))
  }

  /** Nothing remembers the newest generation: no record is stored and the counter is behind it. */
  predicate Stranded(st: Store) {
    st.rec.None? && st.counter < Top(st)
  }

  predicate Bounded(st: Store) {
    forall i :: 0 <= i < |st.log| ==> st.log[i].gen <= MAX_SAFE_INTEGER
  }

  lemma TopIsGreatest(st: Store, i: nat)
    requires Increasing(st.log) && i < |st.log|
    ensures st.log[i].gen <= Top(st)
  {
    assert i < |st.log| - 1 ==> st.log[i].gen < st.log[|st.log| - 1].gen;
  }

  /** A committed claim takes a generation above every earlier one exactly when something still remembered the
      newest one. */
  lemma ClaimIsFreshIff(c: Config, st: Store, a: Attempt)
    requires AttemptOk(st, a) && a.snap.Some? && Newest(st) && |Commit(c, st, a).log| > |st.log|
    ensures var st' := Commit(c, st, a);
      && st'.log == st.log + [Last(st'.log)] && st'.rec.Some? && FenceOf(st'.rec.value) == Last(st'.log)
      && st'.counter == Last(st'.log).gen
      && ((forall i :: 0 <= i < |st.log| ==> st.log[i].gen < Last(st'.log).gen) <==> !Stranded(st))
  {
    var st' := Commit(c, st, a);
    if st.log != [] { assert Top(st) == st.log[|st.log| - 1].gen; }
    forall i | 0 <= i < |st.log| ensures st.log[i].gen <= Top(st) { TopIsGreatest(st, i); }
  }

  /** No commit lowers the counter, whatever the log: a claim goes above it and a repair only raises it, to at
      least the generation it was asked for unless the counter moved since the repair began. */
  lemma CommitRaisesCounter(c: Config, st: Store, a: Attempt)
    requires AttemptOk(st, a) && a.snap.Some?
    ensures var st' := Commit(c, st, a);
      && st'.counter >= st.counter
      && (a.purpose.Repair? ==> st'.rec == st.rec && st'.log == st.log)
      && (a.purpose.Repair? && a.counterRev == st.counterRev ==> st'.counter >= a.purpose.gen)
  {
  }

  lemma CommitNewest(c: Config, st: Store, a: Attempt)
    requires AttemptOk(st, a) && a.snap.Some? && Newest(st) && !Stranded(st)
    ensures Newest(Commit(c, st, a))
    ensures st.counter >= Top(st) ==> Commit(c, st, a).counter >= Top(Commit(c, st, a))
  {
    CommitRaisesCounter(c, st, a);
    if |Commit(c, st, a).log| > |st.log| { ClaimIsFreshIff(c, st, a); }
  }

  /** Every step keeps generations increasing while they are remembered; counters may be lost and repaired. */
  lemma NewestKept(c: Config, s: State, e: Event)
    requires Sessions(c, s) && Newest(s.store) && !Stranded(s.store)
    ensures Newest(Step(c, s, e).store)
    ensures !e.CounterLost? && s.store.counter >= Top(s.store) ==>
              Step(c, s, e).store.counter >= Top(Step(c, s, e).store)
  {
    match e
    case Exec(a) =>
      if a in s.attempts && s.attempts[a].snap.Some? { CommitNewest(c, s.store, s.attempts[a]); }
    case _ =>
  }

  lemma BoundedKept(c: Config, s: State, e: Event)
    requires Bounded(s.store)
    ensures Bounded(Step(c, s, e).store)
  {
  }
}
