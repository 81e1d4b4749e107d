/** A control-plane session that commits has seen the store as it is: its EXEC is exactly one atomic transaction. */
module SessionProofs {
  import opened Prelude
  import P = Projections
  import Q = ProjectionProofs
  import H = HostIndexes
  import opened ControlSessions

  // ---- Values of keys ----

  lemma SameTrans(a: Data, b: Data, c: Data, k: Key)
    requires Same(a, b, k) && Same(b, c, k)
    ensures Same(a, c, k)
  {
    match k
    case Routes(ns) =>
      forall name ensures Agree(a.p.active, c.p.active, (ns, name)) {
        assert Agree(a.p.active, b.p.active, (ns, name));
      }
    case Patterns(h) =>
      forall slot ensures Agree(a.p.patterns, c.p.patterns, (h, slot)) {
        assert Agree(a.p.patterns, b.p.patterns, (h, slot));
      }
    case _ =>
  }

  lemma CopySame(o: Data, d: Data, k: Key)
    ensures Same(Copy(o, d, k), d, k)
  {
  }

  lemma CopyOther(o: Data, d: Data, k: Key, j: Key)
    requires j != k && Same(o, d, j)
    ensures Same(Copy(o, d, k), d, j)
  {
    match j
    case Routes(ns) =>
      forall name ensures Agree(Copy(o, d, k).p.active, d.p.active, (ns, name)) {
        assert Agree(o.p.active, d.p.active, (ns, name));
      }
    case Patterns(h) =>
      forall slot ensures Agree(Copy(o, d, k).p.patterns, d.p.patterns, (h, slot)) {
        assert Agree(o.p.patterns, d.p.patterns, (h, slot));
      }
    case _ =>
  }

  // ---- What a session has done so far ----

  predicate Done(x: Session, c: Command) {
    match c
    case WatchKeys(keys) => keys <= x.watched
    case ReadKeys(keys) => keys <= x.got
    case Commit => false
  }

  /** Every command before the current one was carried out. */
  predicate Followed(x: Session) {
    forall q :: 0 <= q < x.phase ==> Done(x, Program(x.job, x.seen.p, q))
  }

  lemma PromoteStable(w: P.Worker, version: string, o: Data, d: Data, k: Key, phase: nat, q: nat)
    requires PromoteProgram(o.p, w, version, phase).ReadKeys?
    requires k in PromoteProgram(o.p, w, version, phase).keys && q <= phase
    ensures PromoteProgram(Copy(o, d, k).p, w, version, q) == PromoteProgram(o.p, w, version, q)
  {
  }

  lemma BumpStable(w: P.Worker, version: string, o: Data, d: Data, k: Key, phase: nat, q: nat)
    requires BumpProgram(o.p, w, version, phase).ReadKeys?
    requires k in BumpProgram(o.p, w, version, phase).keys && q <= phase
    ensures BumpProgram(Copy(o, d, k).p, w, version, q) == BumpProgram(o.p, w, version, q)
  {
  }

  /** A reply does not change what was asked before it. */
  lemma ProgramStable(job: P.Event, o: Data, d: Data, k: Key, phase: nat, q: nat)
    requires Program(job, o.p, phase).ReadKeys? && k in Program(job, o.p, phase).keys && q <= phase
    ensures Program(job, Copy(o, d, k).p, q) == Program(job, o.p, q)
  {
    hide PromoteProgram, BumpProgram;
    match job
    case Promote(w, version) => PromoteStable(w, version, o, d, k, phase, q);
    case Bump(w, version) => BumpStable(w, version, o, d, k, phase, q);
    case _ =>
  }

  /** A key is watched before it is read. */
  lemma WatchesComeFirst(job: P.Event, o: P.State, phase: nat, q: nat)
    requires Program(job, o, phase).WatchKeys? && q < phase && Program(job, o, q).ReadKeys?
    ensures Program(job, o, phase).keys !! Program(job, o, q).keys
  {
  }

  lemma FollowedFetched(x: Session, d: Data, k: Key)
    requires Followed(x)
    ensures Followed(Fetched(x, d, k))
  {
    var y := Fetched(x, d, k);
    if y != x {
      forall q | 0 <= q < y.phase ensures Done(y, Program(y.job, y.seen.p, q)) {
        ProgramStable(x.job, x.seen, d, k, x.phase, q);
        assert Done(x, Program(x.job, x.seen.p, q));
      }
    }
  }

  lemma FollowedAdvanced(x: Session)
    requires Followed(x)
    ensures Followed(Advanced(x))
  {
    var y := Advanced(x);
    forall q | 0 <= q < y.phase ensures Done(y, Program(y.job, y.seen.p, q)) {
      if q < x.phase {
        assert Done(x, Program(x.job, x.seen.p, q));
        if CommandOf(x).WatchKeys? && Program(x.job, x.seen.p, q).ReadKeys? {
          WatchesComeFirst(x.job, x.seen.p, x.phase, q);
        }
      }
    }
  }

  // ---- What a session has seen ----

  /** Reads that are current while no watched key has changed: watched ones, the bundle of the version that the
      watched routes name, and a member of the reverse index whose patterns are watched. */
  predicate Covered(x: Session, k: Key) {
    || k in x.watched
    || (x.job.Promote? && x.phase >= 2 && k in CurrentKeys(x.seen.p, x.job.w))
    || (x.job.Reconcile? && x.phase >= 4 && k.NsHost? && Patterns(k.host) in x.watched)
  }

  ghost predicate Current(x: Session, d: Data) {
    !x.dirty ==> forall k :: k in x.got && Covered(x, k) ==> Same(x.seen, d, k)
  }

  /** Before its first unwatched read a session has read watched keys only. */
  predicate Early(x: Session) {
    (x.job.Promote? && x.phase <= 1) || (x.job.Reconcile? && x.phase <= 3) ==> x.got <= x.watched
  }

  ghost predicate SessionOk(d: Data, x: Session) {
    Followed(x) && Early(x) && Current(x, d)
  }

  lemma FetchedOk(x: Session, d: Data, k: Key)
    requires SessionOk(d, x)
    ensures SessionOk(d, Fetched(x, d, k))
  {
    var y := Fetched(x, d, k);
    FollowedFetched(x, d, k);
    if y != x {
      if x.phase >= 1 { assert Done(x, Program(x.job, x.seen.p, 0)); }
      if x.job.Promote? && x.phase >= 2 { ProgramStable(x.job, x.seen, d, k, x.phase, 2); }
      if !y.dirty {
        forall j | j in y.got && Covered(y, j) ensures Same(y.seen, d, j) {
          if j == k { CopySame(x.seen, d, k); } else { CopyOther(x.seen, d, k, j); }
        }
      }
    }
  }

  lemma AdvancedOk(x: Session, d: Data)
    requires SessionOk(d, x)
    ensures SessionOk(d, Advanced(x))
  {
    FollowedAdvanced(x);
  }

  // ---- Unwatched reads ----

  /** While a version is active, no transaction changes its bundle. */
  lemma ActiveBundleStays(p: P.State, e: P.Event, w: P.Worker)
    requires w in p.active && (w, p.active[w]) in p.bundles
    requires w in P.Step(p, e).active && P.Step(p, e).active[w] == p.active[w]
    ensures Agree(p.bundles, P.Step(p, e).bundles, (w, p.active[w]))
  {
  }

  /** A namespace enters or leaves a host's entry of the reverse index only with a change of the host's patterns. */
  lemma IndexFollowsPatterns(a: Data, b: Data, ns: string, h: string)
    requires Q.Indexed(a.p) && Q.Indexed(b.p) && Same(a, b, Patterns(h))
    ensures Same(a, b, NsHost(ns, h))
  {
    if Q.Owns(a.p, ns, h) {
      var k :| k in a.p.patterns && k.0 == h && a.p.patterns[k].ns == ns;
      assert Agree(a.p.patterns, b.p.patterns, (h, k.1)) && k == (h, k.1);
    }
    if Q.Owns(b.p, ns, h) {
      var k :| k in b.p.patterns && k.0 == h && b.p.patterns[k].ns == ns;
      assert Agree(a.p.patterns, b.p.patterns, (h, k.1)) && k == (h, k.1);
    }
  }

  /** How the store moves under a session: by whole transactions. */
  ghost predicate Moves(d: Data, d': Data) {
    Q.Exact(d.p) && Q.Exact(d'.p) && (d'.p == d.p || exists e :: d'.p == P.Step(d.p, e))
  }

  lemma CurrentBundleStays(x: Session, d: Data, d': Data)
    requires SessionOk(d, x) && !x.dirty && Moves(d, d') && x.job.Promote? && x.phase >= 2 && x.job.w in x.seen.p.active
    requires forall k :: k in x.watched ==> Same(d, d', k)
    ensures Same(d, d', Bundle(x.job.w, x.seen.p.active[x.job.w]))
  {
    var w := x.job.w;
    assert Done(x, Program(x.job, x.seen.p, 0)) && Done(x, Program(x.job, x.seen.p, 1));
    assert Routes(w.0) in x.watched && Routes(w.0) in x.got;
    assert Same(x.seen, d, Routes(w.0)) && Same(d, d', Routes(w.0));
    assert Agree(x.seen.p.active, d.p.active, (w.0, w.1));
    assert Agree(d.p.active, d'.p.active, (w.0, w.1)) && w == (w.0, w.1);
    if d'.p != d.p {
      var e :| d'.p == P.Step(d.p, e);
      ActiveBundleStays(d.p, e, w);
    }
  }

  lemma NoticedOk(x: Session, d: Data, d': Data, touched: set<Key>)
    requires SessionOk(d, x) && Moves(d, d')
    ensures SessionOk(d', Notice(x, d, d', touched))
  {
    var y := Notice(x, d, d', touched);
    assert forall q :: 0 <= q < x.phase ==> Done(x, Program(x.job, x.seen.p, q)) ==>
      Done(y, Program(y.job, y.seen.p, q));
    if !y.dirty {
      forall k | k in y.got && Covered(y, k) ensures Same(y.seen, d', k) {
        assert Covered(x, k) && Same(x.seen, d, k);
        if k in x.watched {
        } else if x.job.Promote? {
          CurrentBundleStays(x, d, d');
        } else {
          assert Same(d, d', Patterns(k.host));
          IndexFollowsPatterns(d, d', k.ns, k.host);
        }
        SameTrans(x.seen, d, d', k);
      }
    }
  }

  // ---- A plan on what was seen is the plan on what is stored ----

  ghost predicate SameAll(o: Data, d: Data, keys: set<Key>) {
    forall k :: k in keys ==> Same(o, d, k)
  }

  lemma SameCurrent(o: Data, d: Data, w: P.Worker)
    requires Same(o, d, Routes(w.0)) && SameAll(o, d, CurrentKeys(o.p, w))
    ensures (w in o.p.active <==> w in d.p.active) && (w in o.p.active ==> o.p.active[w] == d.p.active[w])
    ensures P.CurrentMeta(o.p, w) == P.CurrentMeta(d.p, w)
  {
    assert Agree(o.p.active, d.p.active, (w.0, w.1)) && w == (w.0, w.1);
    if w in o.p.active { assert Same(o, d, Bundle(w, o.p.active[w])); }
  }

  lemma SameSlots(o: Data, d: Data, hosts: set<string>, k: P.Slot)
    requires SameAll(o, d, PatternKeys(hosts)) && k.0 in hosts
    ensures Agree(o.p.patterns, d.p.patterns, k)
  {
    assert Same(o, d, Patterns(k.0)) && k == (k.0, k.1);
  }

  lemma SameOwner(o: Data, d: Data, hosts: set<string>, ns: string, h: string, removed: set<P.Slot>,
                  routes: seq<P.Route>)
    requires SameAll(o, d, PatternKeys(hosts)) && h in hosts
    ensures P.OwnsAfter(ns, h, o.p.patterns, removed, routes) <==> P.OwnsAfter(ns, h, d.p.patterns, removed, routes)
  {
    forall k: P.Slot | k.0 == h ensures Agree(o.p.patterns, d.p.patterns, k) { SameSlots(o, d, hosts, k); }
  }

  function PromoteKeys(o: P.State, w: P.Worker, version: string): set<Key> {
    {Routes(w.0), Hosts(w.0), Bundle(w, version)} + CurrentKeys(o, w)
      + ConsumerKeys(w.0, P.Queues(MetaOf(o, w, version).consumers)) + PatternKeys(Affected(o, w, version))
  }

  lemma SameDeclared(o: Data, d: Data, ns: string, routes: seq<P.Route>)
    requires Same(o, d, Hosts(ns))
    ensures P.HostsDeclared(o.p, ns, routes) <==> P.HostsDeclared(d.p, ns, routes)
  {
  }

  lemma SameRoutesFree(o: Data, d: Data, w: P.Worker, routes: seq<P.Route>, hosts: set<string>)
    requires SameAll(o, d, PatternKeys(hosts)) && P.HostsOf(routes) <= hosts
    ensures P.RoutesFree(o.p, w, routes) <==> P.RoutesFree(d.p, w, routes)
  {
    forall r, k: P.Slot | r in routes && k.0 == r.host ensures Agree(o.p.patterns, d.p.patterns, k) {
      assert r.host in P.HostsOf(routes);
      SameSlots(o, d, hosts, k);
    }
  }

  lemma SameQueuesFree(o: Data, d: Data, w: P.Worker, cs: seq<P.Consumer>)
    requires SameAll(o, d, ConsumerKeys(w.0, P.Queues(cs)))
    ensures P.QueuesFree(o.p, w, cs) <==> P.QueuesFree(d.p, w, cs)
  {
    forall c | c in cs ensures Agree(o.p.consumers, d.p.consumers, (w.0, c.queue)) {
      assert c.queue in P.Queues(cs) && Consumers(w.0, c.queue) in ConsumerKeys(w.0, P.Queues(cs));
      assert Same(o, d, Consumers(w.0, c.queue));
    }
  }

  lemma PromoteVerdict(o: Data, d: Data, w: P.Worker, version: string)
    requires SameAll(o, d, PromoteKeys(o.p, w, version))
    ensures P.PromoteAllowed(o.p, w, version) <==> P.PromoteAllowed(d.p, w, version)
  {
    hide P.HostsDeclared, P.RoutesFree, P.QueuesFree;
    assert Same(o, d, Bundle(w, version)) && Same(o, d, Hosts(w.0));
    if (w, version) in o.p.bundles {
      var meta := o.p.bundles[(w, version)];
      SameDeclared(o, d, w.0, meta.routes);
      SameRoutesFree(o, d, w, meta.routes, Affected(o.p, w, version));
      SameQueuesFree(o, d, w, meta.consumers);
    }
  }

  lemma PromoteAgrees(o: Data, d: Data, w: P.Worker, version: string)
    requires SameAll(o, d, PromoteKeys(o.p, w, version)) && (w, version) in o.p.bundles
    ensures (w, version) in d.p.bundles
    ensures P.PromoteWrites(d.p, o.p, w, version) == P.PromoteWrites(d.p, d.p, w, version)
  {
    assert Same(o, d, Bundle(w, version)) && Same(o, d, Routes(w.0));
    SameCurrent(o, d, w);
    var meta, was := o.p.bundles[(w, version)], P.CurrentMeta(o.p, w);
    var removed := P.RouteKeys(was.routes) - P.RouteKeys(meta.routes);
    var affected := P.HostsOf(was.routes) + P.HostsOf(meta.routes);
    forall h | h in affected
      ensures P.OwnsAfter(w.0, h, o.p.patterns, removed, meta.routes) <==>
                P.OwnsAfter(w.0, h, d.p.patterns, removed, meta.routes)
    {
      SameOwner(o, d, affected, w.0, h, removed, meta.routes);
    }
    assert P.NsHostsAfter(d.p.nsHosts, o.p.patterns, w.0, affected, removed, meta.routes)
        == P.NsHostsAfter(d.p.nsHosts, d.p.patterns, w.0, affected, removed, meta.routes);
  }

  lemma BumpAgrees(o: Data, d: Data, w: P.Worker, version: string)
    requires SameAll(o, d, {Routes(w.0), Hosts(w.0)} + CurrentKeys(o.p, w))
    requires (w, version) !in o.p.bundles && (w, version) !in d.p.bundles
    ensures P.BumpAllowed(o.p, w, version) <==> P.BumpAllowed(d.p, w, version)
    ensures P.BumpAllowed(o.p, w, version) ==> P.BumpWrites(d.p, o.p, w, version) == P.BumpWrites(d.p, d.p, w, version)
  {
    assert Same(o, d, Routes(w.0)) && Same(o, d, Hosts(w.0));
    SameCurrent(o, d, w);
    if w in o.p.active { assert Same(o, d, Bundle(w, o.p.active[w])); }
  }

  function ReconcileKeys(o: P.State, ns: string, body: set<string>): set<Key> {
    var hosts := ToRemove(o, ns, body);
    {Hosts(ns)} + NsHostKeys(ns, hosts) + PatternKeys(hosts) + DeclarationKeys(hosts)
  }

  lemma SameHosts(o: Data, d: Data, ns: string)
    requires Same(o, d, Hosts(ns))
    ensures H.HostsFor(o.p.hosts, ns) == H.HostsFor(d.p.hosts, ns)
  {
    forall h ensures h in H.HostsFor(o.p.hosts, ns) <==> h in H.HostsFor(d.p.hosts, ns) {
      assert h in H.HostsFor(o.p.hosts, ns) <==> (ns, h) in o.p.hosts;
      assert h in H.HostsFor(d.p.hosts, ns) <==> (ns, h) in d.p.hosts;
    }
  }

  lemma ReconcileVerdict(o: Data, d: Data, ns: string, body: set<string>)
    requires SameAll(o, d, ReconcileKeys(o.p, ns, body))
    ensures P.ReconcileAllowed(o.p, ns, body) <==> P.ReconcileAllowed(d.p, ns, body)
  {
    assert Same(o, d, Hosts(ns));
    SameHosts(o, d, ns);
    var hosts := ToRemove(o.p, ns, body);
    forall h, k: P.Slot | (ns, h) in o.p.hosts && h !in body && k.0 == h
      ensures Same(o, d, NsHost(ns, h)) && Agree(o.p.patterns, d.p.patterns, k)
    {
      assert h in hosts && NsHost(ns, h) in NsHostKeys(ns, hosts);
      SameSlots(o, d, hosts, k);
    }
  }

  lemma ReconcileAgrees(o: Data, d: Data, h: H.State, ns: string, body: set<string>)
    requires SameAll(o, d, ReconcileKeys(o.p, ns, body)) && d.p.hosts == h.hosts && d.declarations == h.declarations
    ensures H.ReconcileWrites(h, o.p.hosts, o.declarations, ns, body) == H.ReconcileStep(h, ns, body)
  {
    assert Same(o, d, Hosts(ns));
    SameHosts(o, d, ns);
    var hosts := ToRemove(o.p, ns, body);
    forall x | x in hosts
      ensures H.DeclaredByOthers(o.declarations, ns, x) <==> H.DeclaredByOthers(d.declarations, ns, x)
    {
      assert Declarations(x) in DeclarationKeys(hosts) && Same(o, d, Declarations(x));
      SameDeclarers(o, d, ns, x);
    }
  }

  lemma SameDeclarers(o: Data, d: Data, ns: string, h: string)
    requires Same(o, d, Declarations(h))
    ensures H.DeclaredByOthers(o.declarations, ns, h) <==> H.DeclaredByOthers(d.declarations, ns, h)
  {
    if H.DeclaredByOthers(o.declarations, ns, h) {
      var p :| p in o.declarations && p.0 == h && p.1 != ns;
      assert p == (h, p.1) && (h, p.1) in d.declarations;
    }
    if H.DeclaredByOthers(d.declarations, ns, h) {
      var p :| p in d.declarations && p.0 == h && p.1 != ns;
      assert p == (h, p.1) && (h, p.1) in o.declarations;
    }
  }
}
