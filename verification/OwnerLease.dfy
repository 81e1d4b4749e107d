/** Ownership of one D1 database: the owner record with its lease and TTL, the generation counter,
    optimistic claims, renewals, drains, and the queries an owning task runs under a lease budget.
    Times are milliseconds of Redis time; a task's own clock differs from it by a fixed offset. */
module OwnerLease {
  import opened Prelude

  datatype Config = Config(ttl: int, guard: int)

  predicate Sane(c: Config) {
    0 < c.ttl && 0 <= c.guard
  }

  datatype Fence = Fence(task: nat, gen: nat)

  datatype Owner = Owner(task: nat, gen: nat, lease: int)

  function FenceOf(o: Owner): Fence {
    Fence(o.task, o.gen)
  }

  datatype Purpose =
    | Resolve
    | Takeover(stale: Fence)
    | Rebalance(target: Option<nat>)
    | Repair(gen: nat)

  datatype Snapshot = Snapshot(rec: Option<Owner>, counter: nat, at: int)

  /** One WATCH session: the revisions it watched and, later, what it read. */
  datatype Attempt = Attempt(task: nat, purpose: Purpose, recRev: nat, counterRev: nat, snap: Option<Snapshot>)

  datatype Write = Claim(owner: Owner) | Release | SetCounter(gen: nat)

  /** A renewal between its read and its compare-and-set. */
  datatype Renewal = Renewal(raw: Owner, at: int)

  datatype Phase =
    | Admitted                                                 // counted as pending, draining not yet checked
    | Checked
    | NeedsRenewal                                             // the lease is shorter than the guard
    | Renewing(renewal: Renewal)
    | Asserted(lease: int, at: int)                            // fence matched at Redis time `at`
    | Guarded(deadline: int, lease: int, at: int, made: int)   // local deadline fixed at Redis time `made`

  datatype Query = Query(task: nat, gen: nat, phase: Phase)

  datatype Wait = Waiting | Idle | TimedOut

  /** One task's drain of its ownership: the actor wait, then read and compare-and-delete. */
  datatype Drain = Drain(fence: Fence, wait: Wait, raw: Option<Owner>)

  /** What Redis holds for the database. */
  datatype Store = Store(
    now: int,
    rec: Option<Owner>,
    dead: int,                      // when the record's TTL removes it
    counter: nat,
    recRev: nat,
    counterRev: nat,
    log: seq<Fence>                 // every ownership committed so far
  )

  datatype State = State(
    store: Store,
    attempts: map<nat, Attempt>,
    renewals: map<nat, Renewal>,
    queries: map<nat, Query>,
    draining: set<nat>,
    drains: map<nat, Drain>,
    offset: map<nat, int>
  )

  datatype QueryEvent = Admit(fence: Fence) | Check | AssertOwner | ReadRenewal | CasRenewal | MakeGuard | Finish

  datatype DrainEvent = StartDrain(fence: Fence) | IdleSeen | WaitFailed | ReleaseRead | ReleaseDel

  datatype Event =
    | Tick(ms: nat)
    | CounterLost(to: nat)
    | Watch(a: nat, task: nat, purpose: Purpose)
    | Snap(a: nat)
    | Exec(a: nat)
    | RenewRead(r: nat, fence: Fence)
    | RenewCas(r: nat)
    | OnQuery(q: nat, query: QueryEvent)
    | OnDrain(d: nat, drain: DrainEvent)

  function Min(a: int, b: int): int {
    if a <= b then a else b
  }

  function Max(a: int, b: int): int {
    if a >= b then a else b
  }

  function LeaseAt(c: Config, at: int): int {
    Min(MAX_SAFE_INTEGER, at + c.ttl)
  }

  predicate Expired(o: Owner, at: int) {
    o.lease <= at
  }

  predicate Matches(rec: Option<Owner>, f: Fence) {
    rec.Some? && FenceOf(rec.value) == f
  }

  // ---- Redis ----

  /** Time passes; a record whose TTL ran out is gone, which also dirties sessions watching it. */
  function Elapse(st: Store, ms: nat): Store {
    var t := st.(now := st.now + ms);
    if st.rec.Some? && st.dead <= t.now then t.(rec := None, recRev := st.recRev + 1) else t
  }

  function LoseCounter(st: Store, to: nat): Store {
    if to < st.counter then st.(counter := to, counterRev := st.counterRev + 1) else st
  }

  function Perform(c: Config, st: Store, w: Write): Store {
    match w
    case Claim(owner) =>
      st.(rec := Some(owner), dead := st.now + c.ttl, counter := owner.gen,
          recRev := st.recRev + 1, counterRev := st.counterRev + 1, log := st.log + [FenceOf(owner)])
    case Release => st.(rec := None, recRev := st.recRev + 1)
    case SetCounter(gen) => st.(counter := gen, counterRev := st.counterRev + 1)
  }

  function SetIfEqual(c: Config, st: Store, expected: Owner, owner: Owner): Store {
    if st.rec == Some(expected)
    then st.(rec := Some(owner), dead := st.now + c.ttl, recRev := st.recRev + 1) else st
  }

  function DeleteIfEqual(st: Store, expected: Owner): Store {
    if st.rec == Some(expected) then st.(rec := None, recRev := st.recRev + 1) else st
  }

  // ---- Claims, takeovers, moves and counter repairs ----

  function NextGeneration(counter: nat, current: Option<Owner>): Option<nat> {
    var previous := if current.Some? && current.value.gen > counter then current.value.gen else counter;
    if previous >= MAX_SAFE_INTEGER then None else Some(previous + 1)
  }

  function ClaimFor(c: Config, task: nat, snap: Snapshot): Option<Write> {
    match NextGeneration(snap.counter, snap.rec)
    case None => None
    case Some(gen) => Some(Claim(Owner(task, gen, LeaseAt(c, snap.at))))
  }

  /** What a session that read `snap` stages, if anything. */
  function Plan(c: Config, task: nat, purpose: Purpose, snap: Snapshot): Option<Write> {
    match purpose
    case Resolve =>
      if snap.rec.Some? then None else ClaimFor(c, task, snap)
    case Takeover(stale) =>
      if !Matches(snap.rec, stale) || !Expired(snap.rec.value, snap.at) then None else ClaimFor(c, task, snap)
    case Rebalance(target) =>
      if snap.rec.None? || snap.rec.value.task != task then None
      else if target.None? then Some(Release)
      else if target.value == task then None
      else ClaimFor(c, target.value, snap)
    case Repair(gen) =>
      if snap.counter >= gen then None else Some(SetCounter(gen))
  }

  /** EXEC goes through only while the watched keys are untouched. */
  predicate Clean(st: Store, a: Attempt) {
    && (a.purpose.Repair? || a.recRev == st.recRev)
    && a.counterRev == st.counterRev
  }

  predicate WatchEnabled(s: State, a: nat, task: nat, purpose: Purpose) {
    && a !in s.attempts
    && (purpose.Resolve? || purpose.Takeover? ==> task !in s.draining)
    && (purpose.Repair? ==> exists i :: 0 <= i < |s.store.log| && s.store.log[i] == Fence(task, purpose.gen))
  }

  function WatchStep(s: State, a: nat, task: nat, purpose: Purpose): State {
    if !WatchEnabled(s, a, task, purpose) then s
    else s.(attempts := s.attempts[a := Attempt(task, purpose, s.store.recRev, s.store.counterRev, None)])
  }

  function ReadSnapshot(st: Store): Snapshot {
    Snapshot(st.rec, st.counter, st.now)
  }

  function SnapStep(s: State, a: nat): State {
    if a !in s.attempts then s
    else s.(attempts := s.attempts[a := s.attempts[a].(snap := Some(ReadSnapshot(s.store)))])
  }

  function Commit(c: Config, st: Store, a: Attempt): Store
    requires a.snap.Some?
  {
    var plan := Plan(c, a.task, a.purpose, a.snap.value);
    if plan.Some? && Clean(st, a) then Perform(c, st, plan.value) else st
  }

  function ExecStep(c: Config, s: State, a: nat): State {
    if a !in s.attempts || s.attempts[a].snap.None? then s
    else s.(attempts := s.attempts - {a}, store := Commit(c, s.store, s.attempts[a]))
  }

  // ---- Renewals ----

  /** The read half of `renewOwner`: nothing is renewed for a lost or expired ownership. */
  function ReadForRenewal(st: Store, f: Fence): Option<Renewal> {
    if Matches(st.rec, f) && !Expired(st.rec.value, st.now) then Some(Renewal(st.rec.value, st.now)) else None
  }

  function Renewed(c: Config, r: Renewal): Owner {
    Owner(r.raw.task, r.raw.gen, LeaseAt(c, r.at))
  }

  function CasRenew(c: Config, st: Store, r: Renewal): Store {
    SetIfEqual(c, st, r.raw, Renewed(c, r))
  }

  function RenewReadStep(s: State, r: nat, f: Fence): State {
    var read := ReadForRenewal(s.store, f);
    if r in s.renewals || read.None? then s else s.(renewals := s.renewals[r := read.value])
  }

  function RenewCasStep(c: Config, s: State, r: nat): State {
    if r !in s.renewals then s
    else s.(renewals := s.renewals - {r}, store := CasRenew(c, s.store, s.renewals[r]))
  }

  // ---- Queries ----

  function LocalNow(s: State, task: nat): int {
    s.store.now + if task in s.offset then s.offset[task] else 0
  }

  /** assertCurrentOwnerWithLeaseBudget up to its answer or its renewal. */
  function AssertedPhase(c: Config, st: Store, f: Fence): Option<Phase> {
    if !Matches(st.rec, f) || Expired(st.rec.value, st.now) then None
    else if st.rec.value.lease - st.now < c.guard then Some(NeedsRenewal)
    else Some(Asserted(st.rec.value.lease, st.now))
  }

  /** A lost renewal race reads again; a renewed lease shorter than the guard refuses. */
  function RenewedPhase(c: Config, st: Store, r: Renewal): Option<Phase> {
    if st.rec != Some(r.raw) then Some(NeedsRenewal)
    else if LeaseAt(c, r.at) - r.at < c.guard then None
    else Some(Asserted(LeaseAt(c, r.at), r.at))
  }

  /** The phase a query is in after `e`; None when it is over. */
  function NextPhase(c: Config, s: State, query: Query, e: QueryEvent): Option<Phase> {
    var f, p := Fence(query.task, query.gen), query.phase;
    match e
    case Finish => None
    case Check =>
      if !p.Admitted? then Some(p) else if query.task in s.draining then None else Some(Checked)
    case AssertOwner => if p.Checked? then AssertedPhase(c, s.store, f) else Some(p)
    case ReadRenewal =>
      if !p.NeedsRenewal? then Some(p)
      else
        var read := ReadForRenewal(s.store, f);
        if read.None? then None else Some(Renewing(read.value))
    case CasRenewal => if p.Renewing? then RenewedPhase(c, s.store, p.renewal) else Some(p)
    case MakeGuard =>
      if !p.Asserted? then Some(p)
      else
        var deadline := LocalNow(s, query.task) + Max(0, p.lease - p.at - c.guard);
        Some(Guarded(deadline, p.lease, p.at, s.store.now))
    case Admit(_) => Some(p)
  }

  function NextQueries(c: Config, s: State, q: nat, e: QueryEvent): map<nat, Query> {
    if q !in s.queries then
      if e.Admit? then s.queries[q := Query(e.fence.task, e.fence.gen, Admitted)] else s.queries
    else
      match NextPhase(c, s, s.queries[q], e)
      case None => s.queries - {q}
      case Some(phase) => s.queries[q := s.queries[q].(phase := phase)]
  }

  function QueryStep(c: Config, s: State, q: nat, e: QueryEvent): State {
    s.(queries := NextQueries(c, s, q, e),
       store := if e.CasRenewal? && q in s.queries && s.queries[q].phase.Renewing?
                then CasRenew(c, s.store, s.queries[q].phase.renewal) else s.store)
  }

  /** assertLeaseBudget: a guarded query may start a SQL statement now. */
  predicate MayStartSql(s: State, q: nat) {
    && q in s.queries && s.queries[q].phase.Guarded?
    && LocalNow(s, s.queries[q].task) < s.queries[q].phase.deadline
  }

  // ---- Drain ----

  predicate NoPending(queries: map<nat, Query>, task: nat) {
    forall q :: q in queries ==> queries[q].task != task
  }

  function NextDrain(s: State, drain: Drain, e: DrainEvent): Drain {
    match e
    case StartDrain(_) => drain
    case IdleSeen =>
      if drain.wait == Waiting && NoPending(s.queries, drain.fence.task) then drain.(wait := Idle) else drain
    case WaitFailed => if drain.wait == Waiting then drain.(wait := TimedOut) else drain
    case ReleaseRead =>
      if drain.wait == Idle && Matches(s.store.rec, drain.fence) then drain.(raw := s.store.rec) else drain
    case ReleaseDel => drain
  }

  function DrainStep(s: State, d: nat, e: DrainEvent): State {
    if d !in s.drains then
      if e.StartDrain?
      then s.(draining := s.draining + {e.fence.task}, drains := s.drains[d := Drain(e.fence, Waiting, None)])
      else s
    else if e.ReleaseDel? then
      if s.drains[d].wait == Idle && s.drains[d].raw.Some?
      then s.(store := DeleteIfEqual(s.store, s.drains[d].raw.value)) else s
    else s.(drains := s.drains[d := NextDrain(s, s.drains[d], e)])
  }

  function Step(c: Config, s: State, e: Event): State {
    match e
    case Tick(ms) => s.(store := Elapse(s.store, ms))
    case CounterLost(to) => s.(store := LoseCounter(s.store, to))
    case Watch(a, task, purpose) => WatchStep(s, a, task, purpose)
    case Snap(a) => SnapStep(s, a)
    case Exec(a) => ExecStep(c, s, a)
    case RenewRead(r, f) => RenewReadStep(s, r, f)
    case RenewCas(r) => RenewCasStep(c, s, r)
    case OnQuery(q, query) => QueryStep(c, s, q, query)
    case OnDrain(d, drain) => DrainStep(s, d, drain)
  }

  function Run(c: Config, s: State, es: seq<Event>): State
    decreases |es|
  {
    if es == [] then s else Run(c, Step(c, s, es[0]), es[1..])
  }
}
