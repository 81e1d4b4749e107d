/** Declared-host indexes: reconciles that keep hosts:<ns> and its inverses together, and the rebuild that
    reads many keys one after another and commits only while the revision it watched is unchanged. */
module HostIndexes {
  import opened Prelude
  import P = Projections

  const MAX_ENTRIES: nat := 10_000

  datatype Rebuild = Rebuild(
    revision: nat,
    scopes: Option<set<string>>,           // namespaces whose hosts:<ns> key the scan found
    oldKeys: Option<set<string>>,          // hosts whose declaration key the scan found
    done: set<string>,
    collected: set<(string, string)>       // namespace, host
  )

  datatype State = State(
    hosts: set<(string, string)>,          // namespace, host
    declarations: set<(string, string)>,   // host, namespace
    declaredHosts: set<string>,
    revision: nat,
    rebuilds: map<nat, Rebuild>
  )

  datatype Event =
    | Reconcile(ns: string, body: set<string>)
    | StartRebuild(id: nat)
    | ScanHosts(id: nat)
    | ScanDeclarations(id: nat)
    | ReadHosts(id: nat, ns: string)
    | CommitRebuild(id: nat)

  function HostsFor(hosts: set<(string, string)>, ns: string): set<string> {
    set p | p in hosts && p.0 == ns :: p.1
  }

  predicate DeclaredByOthers(declarations: set<(string, string)>, ns: string, h: string) {
    exists p :: p in declarations && p.0 == h && p.1 != ns
  }

  /** stageDeclaredHostChanges, planned on observed hosts and declarations and applied to what is stored. */
  function ReconcileWrites(s: State, hosts: set<(string, string)>, declarations: set<(string, string)>, ns: string,
                           body: set<string>): State {
    var current := HostsFor(hosts, ns);
    var toAdd, toRemove := body - current, current - body;
    if toAdd + toRemove == {} then s
    else
      var orphaned := set h | h in toRemove && !DeclaredByOthers(declarations, ns, h);
      s.(
        hosts := (s.hosts + (set h | h in toAdd :: (ns, h))) - (set h | h in toRemove :: (ns, h)),
        declarations := (set p | p in s.declarations + (set h | h in toAdd :: (h, ns))
                                  && !(p.0 in toRemove && p.1 == ns) && p.0 !in orphaned),
        declaredHosts := (s.declaredHosts + toAdd) - orphaned,
        revision := s.revision + 1)
  }

  function ReconcileStep(s: State, ns: string, body: set<string>): State {
    ReconcileWrites(s, s.hosts, s.declarations, ns, body)
  }

  function Update(s: State, id: nat, r: Rebuild): State {
    s.(rebuilds := s.rebuilds[id := r])
  }

  predicate Finished(r: Rebuild) {
    && r.scopes.Some? && r.oldKeys.Some? && r.scopes.value <= r.done
    && |r.scopes.value| + |r.oldKeys.value| + |r.collected| <= MAX_ENTRIES
  }

  function CommitStep(s: State, id: nat): State {
    if id !in s.rebuilds || !Finished(s.rebuilds[id]) then s
    else
      var r := s.rebuilds[id];
      var t := s.(rebuilds := s.rebuilds - {id});
      if r.revision != s.revision then t
      else t.(
        declarations :=
          (set p | p in s.declarations && p.0 !in r.oldKeys.value) + (set p | p in r.collected :: (p.1, p.0)),
        declaredHosts := set p | p in r.collected :: p.1)
  }

  function Step(s: State, e: Event): State {
    match e
    case Reconcile(ns, body) => ReconcileStep(s, ns, body)
    case StartRebuild(id) => Update(s, id, Rebuild(s.revision, None, None, {}, {}))
    case ScanHosts(id) =>
      if id !in s.rebuilds || s.rebuilds[id].scopes.Some? then s
      else Update(s, id, s.rebuilds[id].(scopes := Some(set p | p in s.hosts :: p.0)))
    case ScanDeclarations(id) =>
      if id !in s.rebuilds || s.rebuilds[id].oldKeys.Some? then s
      else Update(s, id, s.rebuilds[id].(oldKeys := Some(set p | p in s.declarations :: p.0)))
    case ReadHosts(id, ns) =>
      if id !in s.rebuilds then s
      else Update(s, id, s.rebuilds[id].(
        done := s.rebuilds[id].done + {ns},
        collected := s.rebuilds[id].collected + (set p | p in s.hosts && p.0 == ns)))
    case CommitRebuild(id) => CommitStep(s, id)
  }

  function Run(s: State, es: seq<Event>): State
    decreases |es|
  {
    if es == [] then s else Run(Step(s, es[0]), es[1..])
  }

  // ---- Exact inverses ----

  function Inverse(hosts: set<(string, string)>): set<(string, string)> {
    set p | p in hosts :: (p.1, p.0)
  }

  predicate Exact(s: State) {
    s.declarations == Inverse(s.hosts) && s.declaredHosts == set p | p in s.hosts :: p.1
  }

  /** What a rebuild has read so far, if nothing has been reconciled since it began. */
  predicate RebuildOk(s: State, r: Rebuild) {
    && r.revision <= s.revision
    && (r.revision == s.revision ==>
          && r.collected == (set p | p in s.hosts && p.0 in r.done)
          && (r.scopes.Some? ==> r.scopes.value == set p | p in s.hosts :: p.0)
          && (r.oldKeys.Some? ==> forall p :: p in s.declarations && p.0 !in r.oldKeys.value ==> (p.1, p.0) in s.hosts))
  }

  predicate Rebuilds(s: State) {
    forall id :: id in s.rebuilds ==> RebuildOk(s, s.rebuilds[id])
  }

  lemma ReconcileDeclarations(s: State, ns: string, body: set<string>)
    requires Exact(s)
    ensures ReconcileStep(s, ns, body).declarations == Inverse(ReconcileStep(s, ns, body).hosts)
  {
    var t := ReconcileStep(s, ns, body);
    forall h, n ensures (h, n) in t.declarations <==> (n, h) in t.hosts {
      assert (h, n) in s.declarations <==> (n, h) in s.hosts;
      assert n == ns ==> (h in HostsFor(s.hosts, ns) <==> (ns, h) in s.hosts);
    }
  }

  lemma ReconcileDeclared(s: State, ns: string, body: set<string>)
    requires Exact(s)
    ensures var t := ReconcileStep(s, ns, body); t.declaredHosts == set p | p in t.hosts :: p.1
  {
    var t := ReconcileStep(s, ns, body);
    forall h ensures h in t.declaredHosts <==> exists n :: (n, h) in t.hosts {
      assert h in s.declaredHosts <==> exists n :: (n, h) in s.hosts;
    }
  }

  /** A reconcile keeps the indexes exact. */
  lemma ReconcileExact(s: State, ns: string, body: set<string>)
    requires Exact(s)
    ensures Exact(ReconcileStep(s, ns, body))
  {
    ReconcileDeclarations(s, ns, body);
    ReconcileDeclared(s, ns, body);
  }

  /** Whatever the indexes held before, a rebuild that commits installs the exact inverses. */
  lemma RebuildInstallsInverses(s: State, id: nat)
    requires id in s.rebuilds && RebuildOk(s, s.rebuilds[id]) && Finished(s.rebuilds[id])
    requires s.rebuilds[id].revision == s.revision
    ensures Exact(CommitStep(s, id)) && CommitStep(s, id).hosts == s.hosts
  {
    var r, t := s.rebuilds[id], CommitStep(s, id);
    assert r.collected == s.hosts by {
      forall p | p in s.hosts ensures p in r.collected { assert p.0 in r.scopes.value; }
    }
    forall h, n ensures (h, n) in t.declarations <==> (n, h) in t.hosts {
      assert (h, n) in s.declarations && h !in r.oldKeys.value ==> (n, h) in s.hosts;
    }
  }

  lemma CommitKept(s: State, id: nat)
    requires Rebuilds(s)
    ensures Rebuilds(CommitStep(s, id))
  {
    var t := CommitStep(s, id);
    if id in s.rebuilds && Finished(s.rebuilds[id]) && s.rebuilds[id].revision == s.revision {
      assert RebuildOk(s, s.rebuilds[id]);
      RebuildInstallsInverses(s, id);
    }
    forall x | x in t.rebuilds ensures RebuildOk(t, t.rebuilds[x]) {
      assert RebuildOk(s, s.rebuilds[x]);
    }
  }

  lemma ReadKept(s: State, id: nat, ns: string)
    requires Rebuilds(s) && id in s.rebuilds
    ensures Rebuilds(Step(s, ReadHosts(id, ns)))
  {
    var t := Step(s, ReadHosts(id, ns));
    forall x | x in t.rebuilds ensures RebuildOk(t, t.rebuilds[x]) {
      assert RebuildOk(s, s.rebuilds[x]);
      if x == id && s.rebuilds[x].revision == s.revision {
        var before, after := s.rebuilds[x].collected, t.rebuilds[x].collected;
        assert after == before + (set p | p in s.hosts && p.0 == ns);
        assert after == (set p | p in s.hosts && p.0 in t.rebuilds[x].done);
      }
    }
  }

  lemma RebuildsKept(s: State, e: Event)
    requires Rebuilds(s)
    ensures Rebuilds(Step(s, e))
  {
    match e
    case CommitRebuild(id) => CommitKept(s, id);
    case ReadHosts(id, ns) => if id in s.rebuilds { ReadKept(s, id, ns); }
    case _ =>
      var t := Step(s, e);
      forall x | x in t.rebuilds ensures RebuildOk(t, t.rebuilds[x]) {
        if x in s.rebuilds { assert RebuildOk(s, s.rebuilds[x]); }
      }
  }

  lemma ExactKept(s: State, e: Event)
    requires Rebuilds(s) && Exact(s)
    ensures Exact(Step(s, e))
  {
    match e
    case Reconcile(ns, body) => ReconcileExact(s, ns, body);
    case CommitRebuild(id) =>
      if id in s.rebuilds && Finished(s.rebuilds[id]) && s.rebuilds[id].revision == s.revision {
        RebuildInstallsInverses(s, id);
      }
    case _ =>
  }

  lemma {:induction false} Along(s: State, es: seq<Event>)
    requires Rebuilds(s)
    ensures Rebuilds(Run(s, es))
    ensures Exact(s) ==> Exact(Run(s, es))
    decreases |es|
  {
    if es != [] {
      RebuildsKept(s, es[0]);
      if Exact(s) { ExactKept(s, es[0]); }
      Along(Step(s, es[0]), es[1..]);
    }
  }

  /** Host index consistency: from indexes in any condition, once a rebuild has committed after any number
      of separate reads and concurrent reconciles, hostDeclarations and the declared set are the exact
      inverses of the hosts:<ns> sets, and they stay so. */
  lemma RebuiltIndexesStayExact(s: State, before: seq<Event>, id: nat, after: seq<Event>)
    requires s.rebuilds == map[]
    requires var m := Run(s, before);
      id in m.rebuilds && Finished(m.rebuilds[id]) && m.rebuilds[id].revision == m.revision
    ensures Exact(Run(Step(Run(s, before), CommitRebuild(id)), after))
  {
    Along(s, before);
    var m := Run(s, before);
    assert RebuildOk(m, m.rebuilds[id]);
    RebuildInstallsInverses(m, id);
    RebuildsKept(m, CommitRebuild(id));
    Along(Step(m, CommitRebuild(id)), after);
  }

  /** A reconcile between a rebuild's start and its commit makes the commit change nothing. */
  lemma OvertakenRebuildIsDropped(s: State, id: nat, ns: string, body: set<string>)
    requires id in s.rebuilds && s.rebuilds[id].revision == s.revision && body != HostsFor(s.hosts, ns)
    ensures var t := ReconcileStep(s, ns, body);
      CommitStep(t, id) == t || CommitStep(t, id) == t.(rebuilds := t.rebuilds - {id})
  {
  }

  /** The namespace's hosts become the body, and the routing state's reconcile changes the same set. */
  lemma ReconcileSetsHosts(s: State, p: P.State, ns: string, body: set<string>)
    requires s.hosts == p.hosts
    ensures HostsFor(ReconcileStep(s, ns, body).hosts, ns) == body
    ensures P.ReconcileAllowed(p, ns, body) ==> ReconcileStep(s, ns, body).hosts == P.ReconcileStep(p, ns, body).hosts
  {
    var t := ReconcileStep(s, ns, body);
    forall n, h ensures (n, h) in t.hosts <==> if n == ns then h in body else (n, h) in s.hosts {
      assert h in HostsFor(s.hosts, ns) <==> (ns, h) in s.hosts;
    }
  }
}
