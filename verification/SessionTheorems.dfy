/** Every run of interleaved control-plane sessions is a run of whole transactions. */
module SessionTheorems {
  import opened Prelude
  import P = Projections
  import Q = ProjectionProofs
  import H = HostIndexes
  import opened ControlSessions
  import opened SessionProofs

  // ---- Invariant ----

  /** The version a session creates is its own, and not there yet. */
  predicate VersionOk(s: State, x: Session) {
    && (Creates(x.job).Some? ==> Creates(x.job).value in s.numbered && Creates(x.job).value !in s.p.bundles)
    && (x.job.Bump? ==> (x.job.w, x.job.version) !in x.seen.p.bundles)
    && (x.job.Deploy? ==> P.WellFormed(x.job.meta))
  }

  predicate Versions(s: State) {
    && s.p.bundles.Keys <= s.numbered
    && (forall id :: id in s.sessions ==> VersionOk(s, s.sessions[id]))
    && (forall a, b :: a in s.sessions && b in s.sessions && a != b && Creates(s.sessions[a].job).Some? ==>
          Creates(s.sessions[a].job) != Creates(s.sessions[b].job))
  }

  ghost predicate Sessions(s: State) {
    forall id :: id in s.sessions ==> SessionOk(DataOf(s), s.sessions[id])
  }

  ghost predicate Inv(s: State) {
    Q.Exact(s.p) && s.p.hosts == s.h.hosts && Versions(s) && Sessions(s)
  }

  // ---- An EXEC that goes through is one transaction ----

  lemma PromoteSaw(d: Data, x: Session)
    requires SessionOk(d, x) && !x.dirty && x.job.Promote? && CommandOf(x).Commit?
    ensures SameAll(x.seen, d, PromoteKeys(x.seen.p, x.job.w, x.job.version))
  {
    var w, v, o := x.job.w, x.job.version, x.seen.p;
    assert forall q :: 0 <= q < 8 ==> Done(x, PromoteProgram(o, w, v, q)) by {
      forall q | 0 <= q < 8 ensures Done(x, PromoteProgram(o, w, v, q)) { assert Done(x, Program(x.job, o, q)); }
    }
    assert Done(x, PromoteProgram(o, w, v, 0)) && Done(x, PromoteProgram(o, w, v, 1));
    assert Done(x, PromoteProgram(o, w, v, 2));
    assert Done(x, PromoteProgram(o, w, v, 3)) && Done(x, PromoteProgram(o, w, v, 4));
    assert Done(x, PromoteProgram(o, w, v, 5));
    assert Done(x, PromoteProgram(o, w, v, 6)) && Done(x, PromoteProgram(o, w, v, 7));
  }

  lemma PromoteRefines(s: State, x: Session)
    requires Q.Exact(s.p) && SessionOk(DataOf(s), x) && !x.dirty && x.job.Promote? && CommandOf(x).Commit?
    ensures Apply(s, x) == (P.Step(s.p, x.job), s.h)
  {
    var w, v, o, d := x.job.w, x.job.version, x.seen, DataOf(s);
    PromoteSaw(d, x);
    PromoteVerdict(o, d, w, v);
    assert Same(o, d, Routes(w.0));
    SameCurrent(o, d, w);
    if w in o.p.active { assert Same(o, d, Bundle(w, o.p.active[w])); }
    if P.PromoteAllowed(o.p, w, v) { PromoteAgrees(o, d, w, v); }
  }

  lemma BumpRefines(s: State, x: Session)
    requires SessionOk(DataOf(s), x) && VersionOk(s, x) && !x.dirty && x.job.Bump? && CommandOf(x).Commit?
    ensures Apply(s, x) == (P.Step(s.p, x.job), s.h)
  {
    var w, v, o, d := x.job.w, x.job.version, x.seen, DataOf(s);
    forall q | 0 <= q < 8 ensures Done(x, BumpProgram(o.p, w, v, q)) { assert Done(x, Program(x.job, o.p, q)); }
    assert Done(x, BumpProgram(o.p, w, v, 0)) && Done(x, BumpProgram(o.p, w, v, 1));
    assert Done(x, BumpProgram(o.p, w, v, 2));
    assert Done(x, BumpProgram(o.p, w, v, 3)) && Done(x, BumpProgram(o.p, w, v, 4));
    BumpAgrees(o, d, w, v);
  }

  lemma DeleteRefines(s: State, x: Session)
    requires SessionOk(DataOf(s), x) && !x.dirty && x.job.DeleteVersion? && CommandOf(x).Commit?
    ensures Apply(s, x) == (P.Step(s.p, x.job), s.h)
  {
    var w, v, o, d := x.job.w, x.job.version, x.seen, DataOf(s);
    forall q | 0 <= q < 3 ensures Done(x, DeleteProgram(w, v, q)) { assert Done(x, Program(x.job, o.p, q)); }
    assert Done(x, DeleteProgram(w, v, 0)) && Done(x, DeleteProgram(w, v, 1)) && Done(x, DeleteProgram(w, v, 2));
    assert Same(o, d, Routes(w.0)) && Same(o, d, Bundle(w, v));
    assert Agree(o.p.active, d.p.active, (w.0, w.1)) && w == (w.0, w.1);
    if (w, v) !in s.p.bundles { assert s.p.bundles - {(w, v)} == s.p.bundles; }
  }

  /** What a transaction of the session's job does to the host indexes. */
  function IndexEvent(p: P.State, job: P.Event): Option<H.Event> {
    if job.Reconcile? && P.ReconcileAllowed(p, job.ns, job.body) then Some(H.Reconcile(job.ns, job.body)) else None
  }

  function IndexStep(h: H.State, e: Option<H.Event>): H.State {
    if e.Some? then H.Step(h, e.value) else h
  }

  lemma ReconcileRefines(s: State, x: Session)
    requires SessionOk(DataOf(s), x) && s.p.hosts == s.h.hosts && !x.dirty && x.job.Reconcile? && CommandOf(x).Commit?
    ensures Apply(s, x) == (P.Step(s.p, x.job), IndexStep(s.h, IndexEvent(s.p, x.job)))
  {
    var ns, body, o, d := x.job.ns, x.job.body, x.seen, DataOf(s);
    forall q | 0 <= q < 5 ensures Done(x, ReconcileProgram(o.p, ns, body, q)) {
      assert Done(x, Program(x.job, o.p, q));
    }
    assert Done(x, ReconcileProgram(o.p, ns, body, 0)) && Done(x, ReconcileProgram(o.p, ns, body, 1));
    assert Done(x, ReconcileProgram(o.p, ns, body, 2)) && Done(x, ReconcileProgram(o.p, ns, body, 3));
    assert Done(x, ReconcileProgram(o.p, ns, body, 4));
    ReconcileVerdict(o, d, ns, body);
    ReconcileAgrees(o, d, s.h, ns, body);
    H.ReconcileSetsHosts(s.h, s.p, ns, body);
  }

  /** A session whose EXEC goes through makes exactly the atomic transaction, on the store as it is then. */
  lemma CommitIsAtomic(s: State, id: nat)
    requires Inv(s) && id in s.sessions && CommandOf(s.sessions[id]).Commit? && !s.sessions[id].dirty
    ensures var x := s.sessions[id];
      Apply(s, x) == (P.Step(s.p, x.job), IndexStep(s.h, IndexEvent(s.p, x.job)))
  {
    var x := s.sessions[id];
    assert SessionOk(DataOf(s), x) && VersionOk(s, x);
    match x.job
    case Promote(_, _) => PromoteRefines(s, x);
    case Bump(_, _) => BumpRefines(s, x);
    case DeleteVersion(_, _) => DeleteRefines(s, x);
    case Reconcile(_, _) => ReconcileRefines(s, x);
    case Deploy(_, _, _) =>
  }

  // ---- Every step keeps the invariant ----

  lemma InstalledSessions(s: State, p: P.State, h: H.State, touched: set<Key>)
    requires Sessions(s) && Moves(DataOf(s), Data(p, h.declarations))
    ensures Sessions(Install(s, p, h, touched))
  {
    var t := Install(s, p, h, touched);
    forall id | id in t.sessions ensures SessionOk(DataOf(t), t.sessions[id]) {
      NoticedOk(s.sessions[id], DataOf(s), Data(p, h.declarations), touched);
    }
  }

  /** What a transaction adds to the bundles. */
  lemma BundlesGrowBy(p: P.State, job: P.Event)
    ensures P.Step(p, job).bundles.Keys <= p.bundles.Keys + (if Creates(job).Some? then {Creates(job).value} else {})
  {
  }

  lemma CommittedVersions(s: State, id: nat, p: P.State, h: H.State, touched: set<Key>)
    requires Versions(s) && id in s.sessions && p == P.Step(s.p, s.sessions[id].job)
    ensures Versions(Install(s.(sessions := s.sessions - {id}), p, h, touched))
  {
    var job := s.sessions[id].job;
    var t := Install(s.(sessions := s.sessions - {id}), p, h, touched);
    assert VersionOk(s, s.sessions[id]);
    BundlesGrowBy(s.p, job);
    forall b | b in t.sessions ensures VersionOk(t, t.sessions[b]) {
      assert VersionOk(s, s.sessions[b]) && t.sessions[b].job == s.sessions[b].job;
      assert t.sessions[b].seen == s.sessions[b].seen;
      if Creates(s.sessions[b].job).Some? { assert Creates(s.sessions[b].job) != Creates(job); }
    }
  }

  lemma HostsFollow(p: P.State, h: H.State, job: P.Event)
    requires p.hosts == h.hosts
    ensures P.Step(p, job).hosts == IndexStep(h, IndexEvent(p, job)).hosts
  {
    if job.Reconcile? { H.ReconcileSetsHosts(h, p, job.ns, job.body); }
  }

  lemma ExecKept(s: State, id: nat, touched: set<Key>)
    requires Inv(s) && id in s.sessions && CommandOf(s.sessions[id]).Commit? && !s.sessions[id].dirty
    ensures Inv(ExecStep(s, id, touched))
    ensures ExecStep(s, id, touched).p == P.Step(s.p, s.sessions[id].job)
    ensures ExecStep(s, id, touched).h == IndexStep(s.h, IndexEvent(s.p, s.sessions[id].job))
  {
    var job := s.sessions[id].job;
    var p, h := P.Step(s.p, job), IndexStep(s.h, IndexEvent(s.p, job));
    CommitIsAtomic(s, id);
    Q.ExactKept(s.p, job);
    HostsFollow(s.p, s.h, job);
    CommittedVersions(s, id, p, h, touched);
    assert Sessions(s.(sessions := s.sessions - {id}));
    InstalledSessions(s.(sessions := s.sessions - {id}), p, h, touched);
  }

  lemma FreshOk(d: Data, job: P.Event)
    ensures SessionOk(d, Fresh(job))
  {
  }

  lemma RebuildKept(s: State, e: H.Event)
    requires Inv(s) && !e.Reconcile?
    ensures Inv(RebuildStep(s, e)) && H.Step(s.h, e).hosts == s.h.hosts
  {
    InstalledSessions(s, s.p, H.Step(s.h, e), {});
    var t := RebuildStep(s, e);
    forall b | b in t.sessions ensures VersionOk(t, t.sessions[b]) { assert VersionOk(s, s.sessions[b]); }
  }

  lemma FetchedVersion(s: State, x: Session, k: Key)
    requires VersionOk(s, x)
    ensures VersionOk(s, Fetched(x, DataOf(s), k))
  {
  }

  lemma OneSession(s: State, id: nat, y: Session)
    requires Inv(s) && id in s.sessions && y.job == s.sessions[id].job
    requires SessionOk(DataOf(s), y) && VersionOk(s, y)
    ensures Inv(s.(sessions := s.sessions[id := y]))
  {
    var t := s.(sessions := s.sessions[id := y]);
    assert DataOf(t) == DataOf(s);
    forall b | b in t.sessions ensures VersionOk(t, t.sessions[b]) && SessionOk(DataOf(t), t.sessions[b]) {
      assert b != id ==> VersionOk(s, s.sessions[b]);
    }
  }

  lemma BeginKept(s: State, id: nat, job: P.Event)
    requires Inv(s)
    ensures Inv(BeginStep(s, id, job))
  {
    var t := BeginStep(s, id, job);
    if t != s {
      FreshOk(DataOf(s), job);
      forall b | b in t.sessions ensures VersionOk(t, t.sessions[b]) && SessionOk(DataOf(t), t.sessions[b]) {
        assert b in s.sessions ==> VersionOk(s, s.sessions[b]);
      }
    }
  }

  lemma InvKept(s: State, e: Event)
    requires Inv(s)
    ensures Inv(Step(s, e))
  {
    match e
    case Begin(id, job) => BeginKept(s, id, job);
    case Get(id, k) =>
      if id in s.sessions {
        FetchedOk(s.sessions[id], DataOf(s), k);
        FetchedVersion(s, s.sessions[id], k);
        OneSession(s, id, Fetched(s.sessions[id], DataOf(s), k));
      }
    case Next(id) =>
      if id in s.sessions {
        AdvancedOk(s.sessions[id], DataOf(s));
        OneSession(s, id, Advanced(s.sessions[id]));
      }
    case Exec(id, touched) =>
      if id in s.sessions && CommandOf(s.sessions[id]).Commit? {
        if s.sessions[id].dirty {
          FreshOk(DataOf(s), s.sessions[id].job);
          OneSession(s, id, Fresh(s.sessions[id].job));
        } else {
          ExecKept(s, id, touched);
        }
      }
    case Abandon(id) =>
    case Rebuild(he) => if !he.Reconcile? { RebuildKept(s, he); }
  }

  // ---- Refinement ----

  /** The transaction a step carries out, if any. */
  function Carries(s: State, e: Event): Option<P.Event> {
    if e.Exec? && e.id in s.sessions && CommandOf(s.sessions[e.id]).Commit? && !s.sessions[e.id].dirty
    then Some(s.sessions[e.id].job) else None
  }

  /** What it does to the host indexes. */
  function CarriesIndex(s: State, e: Event): Option<H.Event> {
    if Carries(s, e).Some? then IndexEvent(s.p, Carries(s, e).value)
    else if e.Rebuild? && !e.e.Reconcile? then Some(e.e) else None
  }

  lemma StepRefines(s: State, e: Event)
    requires Inv(s)
    ensures Step(s, e).p == (if Carries(s, e).Some? then P.Step(s.p, Carries(s, e).value) else s.p)
    ensures Step(s, e).h == IndexStep(s.h, CarriesIndex(s, e))
  {
    if Carries(s, e).Some? { ExecKept(s, e.id, e.touched); }
  }

  function Cons<T>(x: Option<T>, rest: seq<T>): seq<T> {
    if x.Some? then [x.value] + rest else rest
  }

  /** The transactions of a run, in order. */
  ghost function Transactions(s: State, es: seq<Event>): seq<P.Event>
    decreases |es|
  {
    if es == [] then [] else Cons(Carries(s, es[0]), Transactions(Step(s, es[0]), es[1..]))
  }

  ghost function IndexEvents(s: State, es: seq<Event>): seq<H.Event>
    decreases |es|
  {
    if es == [] then [] else Cons(CarriesIndex(s, es[0]), IndexEvents(Step(s, es[0]), es[1..]))
  }

  /** Serializability: whatever the sessions interleave, routing state and host indexes are what the transactions
      that committed make of them, one after another in commit order. */
  lemma {:induction false} SessionsAreAtomic(s: State, es: seq<Event>)
    requires Inv(s)
    ensures Inv(Run(s, es))
    ensures Run(s, es).p == P.Run(s.p, Transactions(s, es))
    ensures Run(s, es).h == H.Run(s.h, IndexEvents(s, es))
    decreases |es|
  {
    if es != [] {
      var t := Step(s, es[0]);
      InvKept(s, es[0]);
      StepRefines(s, es[0]);
      SessionsAreAtomic(t, es[1..]);
      RunCons(s.p, Carries(s, es[0]), Transactions(t, es[1..]));
      IndexRunCons(s.h, CarriesIndex(s, es[0]), IndexEvents(t, es[1..]));
    }
  }

  lemma RunCons(p: P.State, e: Option<P.Event>, rest: seq<P.Event>)
    ensures P.Run(p, Cons(e, rest)) == P.Run(if e.Some? then P.Step(p, e.value) else p, rest)
  {
    if e.Some? { assert Cons(e, rest)[1..] == rest; }
  }

  lemma IndexRunCons(h: H.State, e: Option<H.Event>, rest: seq<H.Event>)
    ensures H.Run(h, Cons(e, rest)) == H.Run(IndexStep(h, e), rest)
  {
    if e.Some? { assert Cons(e, rest)[1..] == rest; }
  }

  // ---- Theorems ----

  /** Nobody is at work, and the routing state is exact; the host indexes may be in any condition. */
  ghost predicate Init(s: State) {
    && Q.Exact(s.p) && s.p.hosts == s.h.hosts && s.sessions == map[] && s.p.bundles.Keys <= s.numbered
    && s.h.rebuilds == map[]
  }

  /** Over every interleaving of the commands of deploys, promotes, bumps, version deletes, reconciles and rebuilds,
      the projections are exactly what the active bundles declare. */
  lemma ProjectionsStayExact(s: State, es: seq<Event>)
    requires Init(s)
    ensures Q.AsDeclared(Run(s, es).p)
  {
    SessionsAreAtomic(s, es);
    Q.ExactIsAsDeclared(Run(s, es).p);
  }

  /** Over every such interleaving, once a rebuild has committed the host indexes are exact and stay so, whatever
      they held before. */
  lemma IndexesStayExact(s: State, before: seq<Event>, id: nat, after: seq<Event>)
    requires Init(s)
    requires var h := Run(s, before).h;
      id in h.rebuilds && H.Finished(h.rebuilds[id]) && h.rebuilds[id].revision == h.revision
    ensures H.Exact(Run(Step(Run(s, before), Rebuild(H.CommitRebuild(id))), after).h)
  {
    var m := Run(s, before);
    SessionsAreAtomic(s, before);
    InvKept(m, Rebuild(H.CommitRebuild(id)));
    StepRefines(m, Rebuild(H.CommitRebuild(id)));
    var n := Step(m, Rebuild(H.CommitRebuild(id)));
    SessionsAreAtomic(n, after);
    H.RebuiltIndexesStayExact(s.h, IndexEvents(s, before), id, IndexEvents(n, after));
  }

  /** A session is retried, and writes nothing, exactly when a key it watched has changed or been rewritten since. */
  lemma OvertakenSessionIsRetried(s: State, id: nat, other: nat, touched: set<Key>, mine: set<Key>)
    requires Inv(s) && id in s.sessions && other in s.sessions && id != other
    requires CommandOf(s.sessions[id]).Commit? && !s.sessions[id].dirty
    requires CommandOf(s.sessions[other]).Commit? && !s.sessions[other].dirty
    ensures var t := Step(s, Exec(other, touched));
      var u := Step(t, Exec(id, mine));
      if exists k :: k in s.sessions[id].watched && (k in touched || !Same(DataOf(s), DataOf(t), k))
      then u.p == t.p && u.h == t.h && id in u.sessions && u.sessions[id] == Fresh(s.sessions[id].job)
      else u.p == P.Step(t.p, s.sessions[id].job)
  {
    var t := Step(s, Exec(other, touched));
    InvKept(s, Exec(other, touched));
    ExecKept(s, other, touched);
    StepRefines(t, Exec(id, mine));
  }
}
