/** After every committed transaction the projections are exactly what the active bundles declare. */
module ProjectionProofs {
  import opened Projections

  // ---- The invariant ----

  predicate BundlesOk(s: State) {
    && (forall b :: b in s.bundles ==> WellFormed(s.bundles[b]))
    && (forall w :: w in s.active ==> (w, s.active[w]) in s.bundles)
  }

  function WorkerOf(p: Projection): Worker {
    (p.ns, p.worker)
  }

  /** A slot's projection names an active version that declares exactly this route. */
  predicate SlotOk(s: State, k: Slot, p: Projection) {
    && WorkerOf(p) in s.active && s.active[WorkerOf(p)] == p.version
    && Route(k.0, k.1, p.kind, p.value) in CurrentMeta(s, WorkerOf(p)).routes
  }

  predicate Sound(s: State) {
    forall k :: k in s.patterns ==> SlotOk(s, k, s.patterns[k])
  }

  predicate Declared(s: State, w: Worker, r: Route) {
    KeyOf(r) in s.patterns && w in s.active && s.patterns[KeyOf(r)] == Project(w, s.active[w], r)
  }

  predicate Complete(s: State) {
    forall w, r :: w in s.active && r in CurrentMeta(s, w).routes ==> Declared(s, w, r)
  }

  predicate OneNamespacePerHost(s: State) {
    forall k, l :: k in s.patterns && l in s.patterns && k.0 == l.0 ==> s.patterns[k].ns == s.patterns[l].ns
  }

  predicate Owns(s: State, ns: string, h: string) {
    exists k :: k in s.patterns && k.0 == h && s.patterns[k].ns == ns
  }

  /** nsHosts is the exact reverse index. */
  ghost predicate Indexed(s: State) {
    forall ns, h :: (ns, h) in s.nsHosts <==> Owns(s, ns, h)
  }

  predicate HostsDeclared(s: State) {
    forall k :: k in s.patterns ==> (s.patterns[k].ns, k.0) in s.hosts
  }

  predicate RecordOk(s: State, q: Queue, r: Record) {
    && (q.0, r.worker) in s.active && s.active[(q.0, r.worker)] == r.version
    && Consumer(q.1, r.config) in CurrentMeta(s, (q.0, r.worker)).consumers
  }

  predicate ConsumersSound(s: State) {
    forall q :: q in s.consumers ==> RecordOk(s, q, s.consumers[q])
  }

  predicate Consumed(s: State, w: Worker, c: Consumer) {
    && w in s.active && (w.0, c.queue) in s.consumers
    && s.consumers[(w.0, c.queue)] == Record(w.1, s.active[w], c.config)
  }

  predicate ConsumersComplete(s: State) {
    forall w, c :: w in s.active && c in CurrentMeta(s, w).consumers ==> Consumed(s, w, c)
  }

  ghost predicate Exact(s: State) {
    && BundlesOk(s) && Sound(s) && Complete(s) && OneNamespacePerHost(s) && Indexed(s) && HostsDeclared(s)
    && ConsumersSound(s) && ConsumersComplete(s)
  }

  // ---- Installing routes and consumers ----

  predicate DistinctKeys(routes: seq<Route>) {
    forall i, j :: 0 <= i < j < |routes| ==> KeyOf(routes[i]) != KeyOf(routes[j])
  }

  lemma {:induction false} InstallElsewhere(ps: map<Slot, Projection>, w: Worker, v: string, routes: seq<Route>,
                                            k: Slot)
    ensures k !in RouteKeys(routes) ==>
              (k in Install(ps, w, v, routes) <==> k in ps) && (k in ps ==> Install(ps, w, v, routes)[k] == ps[k])
    ensures k in RouteKeys(routes) ==> k in Install(ps, w, v, routes)
  {
    if routes != [] {
      var n := |routes| - 1;
      InstallElsewhere(ps, w, v, routes[..n], k);
      assert routes == routes[..n] + [routes[n]];
      assert RouteKeys(routes) == RouteKeys(routes[..n]) + {KeyOf(routes[n])};
    }
  }

  lemma {:induction false} InstallAt(ps: map<Slot, Projection>, w: Worker, v: string, routes: seq<Route>, i: nat)
    requires DistinctKeys(routes) && i < |routes|
    ensures KeyOf(routes[i]) in Install(ps, w, v, routes)
    ensures Install(ps, w, v, routes)[KeyOf(routes[i])] == Project(w, v, routes[i])
  {
    var n := |routes| - 1;
    if i < n {
      assert routes[..n][i] == routes[i];
      InstallAt(ps, w, v, routes[..n], i);
      assert KeyOf(routes[i]) != KeyOf(routes[n]);
    }
  }

  /** What `Install` makes of every slot. */
  lemma Installed(ps: map<Slot, Projection>, w: Worker, v: string, routes: seq<Route>)
    requires DistinctKeys(routes)
    ensures var after := Install(ps, w, v, routes);
      && (forall r :: r in routes ==> KeyOf(r) in after && after[KeyOf(r)] == Project(w, v, r))
      && (forall k :: k in after && k !in RouteKeys(routes) ==> k in ps && after[k] == ps[k])
      && (forall k :: k in ps && k !in RouteKeys(routes) ==> k in after && after[k] == ps[k])
      && (forall k :: k in after && k in RouteKeys(routes) ==>
            after[k] == Project(w, v, Route(k.0, k.1, after[k].kind, after[k].value))
            && Route(k.0, k.1, after[k].kind, after[k].value) in routes)
  {
    var after := Install(ps, w, v, routes);
    forall r | r in routes ensures KeyOf(r) in after && after[KeyOf(r)] == Project(w, v, r) {
      var i :| 0 <= i < |routes| && routes[i] == r;
      InstallAt(ps, w, v, routes, i);
    }
    forall k ensures k !in RouteKeys(routes) ==> (k in after <==> k in ps) && (k in ps ==> after[k] == ps[k]) {
      InstallElsewhere(ps, w, v, routes, k);
    }
    forall k | k in after && k in RouteKeys(routes)
      ensures after[k] == Project(w, v, Route(k.0, k.1, after[k].kind, after[k].value))
              && Route(k.0, k.1, after[k].kind, after[k].value) in routes
    {
      var r :| r in routes && KeyOf(r) == k;
      assert r == Route(k.0, k.1, r.kind, r.value);
    }
  }

  // ---- Promote and bump: routes ----

  /** A worker's slots are exactly the keys of its active routes. */
  lemma OwnSlots(s: State, w: Worker, k: Slot)
    requires Sound(s) && Complete(s)
    ensures k in s.patterns && WorkerOf(s.patterns[k]) == w ==> k in RouteKeys(CurrentMeta(s, w).routes)
    ensures k in RouteKeys(CurrentMeta(s, w).routes) ==> k in s.patterns && WorkerOf(s.patterns[k]) == w
  {
    if k in s.patterns && WorkerOf(s.patterns[k]) == w {
      var r := Route(k.0, k.1, s.patterns[k].kind, s.patterns[k].value);
      assert SlotOk(s, k, s.patterns[k]);
      assert r in CurrentMeta(s, w).routes && KeyOf(r) == k;
    }
    if k in RouteKeys(CurrentMeta(s, w).routes) {
      var r :| r in CurrentMeta(s, w).routes && KeyOf(r) == k;
      assert w in s.active;
      assert Declared(s, w, r);
    }
  }

  /** The state after `w` flipped to `v`, whose bundle is `meta`, seen by its patterns. */
  predicate Flipped(s: State, t: State, w: Worker, v: string, meta: Meta, removed: set<Slot>) {
    && t.active == s.active[w := v] && t.hosts == s.hosts
    && (w, v) in t.bundles && t.bundles[(w, v)] == meta && WellFormed(meta)
    && (forall b :: b in s.bundles && b != (w, v) ==> b in t.bundles && t.bundles[b] == s.bundles[b])
    && (forall b :: b in t.bundles ==> b == (w, v) || (b in s.bundles && t.bundles[b] == s.bundles[b]))
    && t.patterns == Install(s.patterns - removed, w, v, meta.routes)
    && removed == RouteKeys(CurrentMeta(s, w).routes) - RouteKeys(meta.routes)
  }

  lemma OthersKeepMeta(s: State, t: State, w: Worker, v: string, meta: Meta, removed: set<Slot>, x: Worker)
    requires BundlesOk(s) && Flipped(s, t, w, v, meta, removed)
    ensures x != w ==> CurrentMeta(t, x) == CurrentMeta(s, x)
    ensures CurrentMeta(t, w) == meta
  {
  }

  /** No slot that another worker holds is touched by a flip. */
  predicate Unclaimed(s: State, w: Worker, meta: Meta) {
    forall r :: r in meta.routes && KeyOf(r) in s.patterns ==> WorkerOf(s.patterns[KeyOf(r)]) == w
  }

  lemma FlipSound(s: State, t: State, w: Worker, v: string, meta: Meta, removed: set<Slot>)
    requires BundlesOk(s) && Sound(s) && Complete(s) && Flipped(s, t, w, v, meta, removed)
    ensures Sound(t)
  {
    Installed(s.patterns - removed, w, v, meta.routes);
    forall k | k in t.patterns ensures SlotOk(t, k, t.patterns[k]) {
      OthersKeepMeta(s, t, w, v, meta, removed, WorkerOf(t.patterns[k]));
      if k !in RouteKeys(meta.routes) {
        assert k in s.patterns && k !in removed && SlotOk(s, k, s.patterns[k]);
        OwnSlots(s, w, k);
      }
    }
  }

  lemma FlipComplete(s: State, t: State, w: Worker, v: string, meta: Meta, removed: set<Slot>)
    requires BundlesOk(s) && Sound(s) && Complete(s) && Flipped(s, t, w, v, meta, removed) && Unclaimed(s, w, meta)
    ensures Complete(t)
  {
    Installed(s.patterns - removed, w, v, meta.routes);
    forall x, r | x in t.active && r in CurrentMeta(t, x).routes ensures Declared(t, x, r) {
      OthersKeepMeta(s, t, w, v, meta, removed, x);
      if x != w {
        assert Declared(s, x, r);
        OwnSlots(s, w, KeyOf(r));
        assert KeyOf(r) in s.patterns - removed;
      }
    }
  }

  /** Every host of the new routes holds nothing of another namespace. */
  predicate Unshared(s: State, ns: string, meta: Meta) {
    forall r, k :: r in meta.routes && k in s.patterns && k.0 == r.host ==> s.patterns[k].ns == ns
  }

  lemma FlippedSlot(s: State, t: State, w: Worker, v: string, meta: Meta, removed: set<Slot>, k: Slot)
    requires OneNamespacePerHost(s) && HostsDeclared(s)
    requires Flipped(s, t, w, v, meta, removed) && Unshared(s, w.0, meta)
    requires (forall r :: r in meta.routes ==> (w.0, r.host) in s.hosts) && k in t.patterns
    ensures (t.patterns[k].ns, k.0) in t.hosts
    ensures k.0 in HostsOf(meta.routes) ==> t.patterns[k].ns == w.0
    ensures k.0 !in HostsOf(meta.routes) ==> k in s.patterns && t.patterns[k] == s.patterns[k]
  {
    hide Install;
    Installed(s.patterns - removed, w, v, meta.routes);
    if k in RouteKeys(meta.routes) {
      var r :| r in meta.routes && KeyOf(r) == k;
    } else {
      assert k in s.patterns;
      if k.0 in HostsOf(meta.routes) {
        var r :| r in meta.routes && r.host == k.0;
      }
    }
  }

  lemma FlipHosts(s: State, t: State, w: Worker, v: string, meta: Meta, removed: set<Slot>)
    requires OneNamespacePerHost(s) && HostsDeclared(s)
    requires Flipped(s, t, w, v, meta, removed) && Unshared(s, w.0, meta)
    requires forall r :: r in meta.routes ==> (w.0, r.host) in s.hosts
    ensures OneNamespacePerHost(t) && HostsDeclared(t)
  {
    hide Flipped, Unshared, HostsOf;
    forall k | k in t.patterns
      ensures (t.patterns[k].ns, k.0) in t.hosts
      ensures k.0 in HostsOf(meta.routes) ==> t.patterns[k].ns == w.0
      ensures k.0 !in HostsOf(meta.routes) ==> k in s.patterns && t.patterns[k] == s.patterns[k]
    {
      FlippedSlot(s, t, w, v, meta, removed, k);
    }
  }

  // ---- The reverse index ----

  lemma OwnsStays(s: State, t: State, w: Worker, v: string, meta: Meta, removed: set<Slot>, ns: string, h: string)
    requires Sound(s) && Complete(s) && Flipped(s, t, w, v, meta, removed) && Unclaimed(s, w, meta)
    requires ns != w.0 || h !in HostsOf(CurrentMeta(s, w).routes) + HostsOf(meta.routes)
    ensures Owns(t, ns, h) <==> Owns(s, ns, h)
  {
    Installed(s.patterns - removed, w, v, meta.routes);
    if Owns(s, ns, h) {
      var k :| k in s.patterns && k.0 == h && s.patterns[k].ns == ns;
      OwnSlots(s, w, k);
      assert k in removed ==> exists r :: r in CurrentMeta(s, w).routes && KeyOf(r) == k;
      assert k in RouteKeys(meta.routes) ==> exists r :: r in meta.routes && KeyOf(r) == k;
      assert k in t.patterns && t.patterns[k] == s.patterns[k];
    }
    if Owns(t, ns, h) {
      var k :| k in t.patterns && k.0 == h && t.patterns[k].ns == ns;
      assert k in RouteKeys(meta.routes) ==> exists r :: r in meta.routes && KeyOf(r) == k;
      assert k in s.patterns && s.patterns[k] == t.patterns[k];
    }
  }

  /** computeNsHostDeltas decides what the flip will leave. */
  lemma OwnsAfterIsOwns(s: State, t: State, w: Worker, v: string, meta: Meta, removed: set<Slot>, h: string)
    requires Flipped(s, t, w, v, meta, removed)
    ensures OwnsAfter(w.0, h, s.patterns, removed, meta.routes) <==> Owns(t, w.0, h)
  {
    Installed(s.patterns - removed, w, v, meta.routes);
    if h in HostsOf(meta.routes) {
      var r :| r in meta.routes && r.host == h;
      assert KeyOf(r) in t.patterns && t.patterns[KeyOf(r)].ns == w.0;
    } else {
      if OwnsAfter(w.0, h, s.patterns, removed, meta.routes) {
        var k :| k in s.patterns && k.0 == h && k !in removed && s.patterns[k].ns == w.0;
        assert k in RouteKeys(meta.routes) ==> exists r :: r in meta.routes && KeyOf(r) == k;
        assert k in t.patterns && t.patterns[k].ns == w.0;
      }
      if Owns(t, w.0, h) {
        var k :| k in t.patterns && k.0 == h && t.patterns[k].ns == w.0;
        assert k in RouteKeys(meta.routes) ==> exists r :: r in meta.routes && KeyOf(r) == k;
        assert k in s.patterns && k !in removed && s.patterns[k].ns == w.0;
      }
    }
  }

  lemma PromoteIndexed(s: State, t: State, w: Worker, v: string, meta: Meta, removed: set<Slot>)
    requires Sound(s) && Complete(s) && Indexed(s) && Flipped(s, t, w, v, meta, removed) && Unclaimed(s, w, meta)
    requires t.nsHosts == NsHostsAfter(s.nsHosts, s.patterns, w.0,
      HostsOf(CurrentMeta(s, w).routes) + HostsOf(meta.routes), removed, meta.routes)
    ensures Indexed(t)
  {
    var affected := HostsOf(CurrentMeta(s, w).routes) + HostsOf(meta.routes);
    forall ns, h ensures (ns, h) in t.nsHosts <==> Owns(t, ns, h) {
      if ns == w.0 && h in affected {
        OwnsAfterIsOwns(s, t, w, v, meta, removed, h);
      } else {
        OwnsStays(s, t, w, v, meta, removed, ns, h);
        assert (ns, h) in s.nsHosts <==> Owns(s, ns, h);
      }
    }
  }

  lemma BumpOwns(s: State, t: State, w: Worker, v: string, meta: Meta, ns: string, h: string)
    requires Sound(s) && Complete(s) && Flipped(s, t, w, v, meta, {}) && meta == CurrentMeta(s, w)
    ensures Owns(t, ns, h) <==> Owns(s, ns, h)
  {
    hide Install;
    Installed(s.patterns - {}, w, v, meta.routes);
    if Owns(s, ns, h) {
      var k :| k in s.patterns && k.0 == h && s.patterns[k].ns == ns;
      OwnSlots(s, w, k);
      assert k in t.patterns && t.patterns[k].ns == ns;
    }
    if Owns(t, ns, h) {
      var k :| k in t.patterns && k.0 == h && t.patterns[k].ns == ns;
      OwnSlots(s, w, k);
      assert k in s.patterns && s.patterns[k].ns == ns;
    }
  }

  lemma BumpIndexed(s: State, t: State, w: Worker, v: string, meta: Meta)
    requires Sound(s) && Complete(s) && Indexed(s) && Flipped(s, t, w, v, meta, {}) && meta == CurrentMeta(s, w)
    requires t.nsHosts == s.nsHosts
    ensures Indexed(t)
  {
    hide Owns, Flipped, Sound, Complete;
    forall ns, h ensures (ns, h) in t.nsHosts <==> Owns(t, ns, h) {
      BumpOwns(s, t, w, v, meta, ns, h);
    }
  }

  // ---- Queue consumers ----

  predicate DistinctQueues(cs: seq<Consumer>) {
    forall i, j :: 0 <= i < j < |cs| ==> cs[i].queue != cs[j].queue
  }

  lemma {:induction false} ConsumersElsewhere(rs: map<Queue, Record>, w: Worker, v: string, cs: seq<Consumer>, q: Queue)
    ensures q.0 != w.0 || q.1 !in Queues(cs) ==>
              && (q in InstallConsumers(rs, w, v, cs) <==> q in rs)
              && (q in rs ==> InstallConsumers(rs, w, v, cs)[q] == rs[q])
    ensures q.0 == w.0 && q.1 in Queues(cs) ==> q in InstallConsumers(rs, w, v, cs)
  {
    if cs != [] {
      var n := |cs| - 1;
      ConsumersElsewhere(rs, w, v, cs[..n], q);
      assert cs == cs[..n] + [cs[n]];
      assert Queues(cs) == Queues(cs[..n]) + {cs[n].queue};
    }
  }

  lemma {:induction false} ConsumersAt(rs: map<Queue, Record>, w: Worker, v: string, cs: seq<Consumer>, i: nat)
    requires DistinctQueues(cs) && i < |cs|
    ensures (w.0, cs[i].queue) in InstallConsumers(rs, w, v, cs)
    ensures InstallConsumers(rs, w, v, cs)[(w.0, cs[i].queue)] == Record(w.1, v, cs[i].config)
  {
    var n := |cs| - 1;
    if i < n {
      assert cs[..n][i] == cs[i];
      ConsumersAt(rs, w, v, cs[..n], i);
    }
  }

  lemma OwnQueues(s: State, w: Worker, q: string)
    requires ConsumersSound(s) && ConsumersComplete(s)
    ensures (w.0, q) in s.consumers && s.consumers[(w.0, q)].worker == w.1 ==> q in Queues(CurrentMeta(s, w).consumers)
    ensures q in Queues(CurrentMeta(s, w).consumers) ==> (w.0, q) in s.consumers && s.consumers[(w.0, q)].worker == w.1
  {
    if (w.0, q) in s.consumers && s.consumers[(w.0, q)].worker == w.1 {
      assert RecordOk(s, (w.0, q), s.consumers[(w.0, q)]);
      assert Consumer(q, s.consumers[(w.0, q)].config) in CurrentMeta(s, w).consumers;
    }
    if q in Queues(CurrentMeta(s, w).consumers) {
      var c :| c in CurrentMeta(s, w).consumers && c.queue == q;
      assert w in s.active;
      assert Consumed(s, w, c);
    }
  }

  /** The consumer half of a flip. */
  predicate Reconsumed(s: State, t: State, w: Worker, v: string, meta: Meta) {
    && t.consumers == InstallConsumers(s.consumers, w, v, meta.consumers)
         - (set q | q in Queues(CurrentMeta(s, w).consumers) - Queues(meta.consumers) :: (w.0, q))
    && (forall c :: c in meta.consumers && (w.0, c.queue) in s.consumers ==> s.consumers[(w.0, c.queue)].worker == w.1)
  }

  /** A record the flip left alone is another worker's. */
  lemma OtherRecordKept(s: State, t: State, w: Worker, v: string, meta: Meta, removed: set<Slot>, q: Queue)
    requires BundlesOk(s) && ConsumersSound(s) && ConsumersComplete(s)
    requires Flipped(s, t, w, v, meta, removed) && Reconsumed(s, t, w, v, meta)
    requires q in t.consumers && (q.0 != w.0 || q.1 !in Queues(meta.consumers))
    ensures RecordOk(t, q, t.consumers[q])
  {
    hide InstallConsumers, Install, WellFormed;
    ConsumersElsewhere(s.consumers, w, v, meta.consumers, q);
    assert RecordOk(s, q, s.consumers[q]);
    OwnQueues(s, w, q.1);
    OthersKeepMeta(s, t, w, v, meta, removed, (q.0, t.consumers[q].worker));
  }

  lemma FlipConsumersSound(s: State, t: State, w: Worker, v: string, meta: Meta, removed: set<Slot>)
    requires BundlesOk(s) && ConsumersSound(s) && ConsumersComplete(s)
    requires Flipped(s, t, w, v, meta, removed) && Reconsumed(s, t, w, v, meta)
    ensures ConsumersSound(t)
  {
    hide InstallConsumers, Install;
    forall q | q in t.consumers ensures RecordOk(t, q, t.consumers[q]) {
      if q.0 == w.0 && q.1 in Queues(meta.consumers) {
        OthersKeepMeta(s, t, w, v, meta, removed, w);
        var c :| c in meta.consumers && c.queue == q.1;
        var i :| 0 <= i < |meta.consumers| && meta.consumers[i] == c;
        ConsumersAt(s.consumers, w, v, meta.consumers, i);
      } else {
        OtherRecordKept(s, t, w, v, meta, removed, q);
      }
    }
  }

  lemma FlipConsumersComplete(s: State, t: State, w: Worker, v: string, meta: Meta, removed: set<Slot>)
    requires BundlesOk(s) && ConsumersSound(s) && ConsumersComplete(s)
    requires Flipped(s, t, w, v, meta, removed) && Reconsumed(s, t, w, v, meta)
    ensures ConsumersComplete(t)
  {
    forall x, c | x in t.active && c in CurrentMeta(t, x).consumers ensures Consumed(t, x, c) {
      OthersKeepMeta(s, t, w, v, meta, removed, x);
      ConsumersElsewhere(s.consumers, w, v, meta.consumers, (x.0, c.queue));
      if x == w {
        var i :| 0 <= i < |meta.consumers| && meta.consumers[i] == c;
        ConsumersAt(s.consumers, w, v, meta.consumers, i);
      } else {
        assert Consumed(s, x, c);
        OwnQueues(s, w, c.queue);
      }
    }
  }

  // ---- Every transaction ----

  /** Everything but the reverse index, for either kind of flip. */
  lemma FlipKept(s: State, t: State, w: Worker, v: string, meta: Meta, removed: set<Slot>)
    requires Exact(s) && Flipped(s, t, w, v, meta, removed) && Reconsumed(s, t, w, v, meta)
    requires Unclaimed(s, w, meta) && Unshared(s, w.0, meta)
    requires forall r :: r in meta.routes ==> (w.0, r.host) in s.hosts
    ensures Indexed(t) ==> Exact(t)
  {
    FlipSound(s, t, w, v, meta, removed);
    FlipComplete(s, t, w, v, meta, removed);
    FlipHosts(s, t, w, v, meta, removed);
    FlipConsumersSound(s, t, w, v, meta, removed);
    FlipConsumersComplete(s, t, w, v, meta, removed);
  }

  lemma PromoteFlips(s: State, w: Worker, v: string)
    requires BundlesOk(s) && PromoteAllowed(s, w, v)
    ensures var t, meta := PromoteStep(s, w, v), s.bundles[(w, v)];
      && Flipped(s, t, w, v, meta, RouteKeys(CurrentMeta(s, w).routes) - RouteKeys(meta.routes))
      && Unclaimed(s, w, meta) && Unshared(s, w.0, meta) && Reconsumed(s, t, w, v, meta)
  {
    var meta := s.bundles[(w, v)];
    forall r | r in meta.routes && KeyOf(r) in s.patterns ensures WorkerOf(s.patterns[KeyOf(r)]) == w {
      assert s.patterns[KeyOf(r)].ns == w.0;
    }
  }

  lemma PromoteKept(s: State, w: Worker, v: string)
    requires Exact(s) && PromoteAllowed(s, w, v)
    ensures Exact(PromoteStep(s, w, v))
  {
    var t, meta := PromoteStep(s, w, v), s.bundles[(w, v)];
    var removed := RouteKeys(CurrentMeta(s, w).routes) - RouteKeys(meta.routes);
    PromoteFlips(s, w, v);
    FlipKept(s, t, w, v, meta, removed);
    PromoteIndexed(s, t, w, v, meta, removed);
  }

  /** A bump rewrites only slots and queues its worker already holds. */
  lemma BumpFlips(s: State, w: Worker, v: string)
    requires BundlesOk(s) && Sound(s) && Complete(s) && OneNamespacePerHost(s) && BumpAllowed(s, w, v)
    ensures var t, meta := BumpStep(s, w, v), CurrentMeta(s, w);
      Flipped(s, t, w, v, meta, {}) && Unclaimed(s, w, meta) && Unshared(s, w.0, meta)
  {
    var meta := CurrentMeta(s, w);
    assert s.patterns - {} == s.patterns;
    forall r | r in meta.routes ensures KeyOf(r) in s.patterns && WorkerOf(s.patterns[KeyOf(r)]) == w {
      OwnSlots(s, w, KeyOf(r));
    }
  }

  lemma BumpConsumes(s: State, w: Worker, v: string)
    requires ConsumersSound(s) && ConsumersComplete(s) && BumpAllowed(s, w, v)
    ensures Reconsumed(s, BumpStep(s, w, v), w, v, CurrentMeta(s, w))
  {
    forall c | c in CurrentMeta(s, w).consumers
      ensures (w.0, c.queue) in s.consumers && s.consumers[(w.0, c.queue)].worker == w.1
    {
      OwnQueues(s, w, c.queue);
    }
  }

  lemma BumpKept(s: State, w: Worker, v: string)
    requires Exact(s) && BumpAllowed(s, w, v)
    ensures Exact(BumpStep(s, w, v))
  {
    var t, meta := BumpStep(s, w, v), CurrentMeta(s, w);
    BumpFlips(s, w, v);
    BumpConsumes(s, w, v);
    FlipKept(s, t, w, v, meta, {});
    BumpIndexed(s, t, w, v, meta);
  }

  /** Bundles come and go beside the active ones. */
  lemma BundlesKept(s: State, t: State)
    requires Exact(s) && BundlesOk(t) && t == s.(bundles := t.bundles)
    requires forall w :: w in s.active ==> CurrentMeta(t, w) == CurrentMeta(s, w)
    ensures Exact(t)
  {
    forall k | k in t.patterns ensures SlotOk(t, k, t.patterns[k]) { assert SlotOk(s, k, s.patterns[k]); }
    forall w, r | w in t.active && r in CurrentMeta(t, w).routes ensures Declared(t, w, r) { assert Declared(s, w, r); }
    forall q | q in t.consumers ensures RecordOk(t, q, t.consumers[q]) { assert RecordOk(s, q, s.consumers[q]); }
    forall w, c | w in t.active && c in CurrentMeta(t, w).consumers ensures Consumed(t, w, c) {
      assert Consumed(s, w, c);
    }
    forall ns, h ensures Owns(t, ns, h) <==> Owns(s, ns, h) {}
  }

  lemma ReconcileKept(s: State, ns: string, body: set<string>)
    requires Exact(s) && ReconcileAllowed(s, ns, body)
    ensures Exact(ReconcileStep(s, ns, body))
  {
    var t := ReconcileStep(s, ns, body);
    forall k | k in t.patterns ensures (t.patterns[k].ns, k.0) in t.hosts {
      assert (s.patterns[k].ns, k.0) in s.hosts;
      assert Owns(s, s.patterns[k].ns, k.0);
    }
    forall k | k in t.patterns ensures SlotOk(t, k, t.patterns[k]) { assert SlotOk(s, k, s.patterns[k]); }
    forall w, r | w in t.active && r in CurrentMeta(t, w).routes ensures Declared(t, w, r) { assert Declared(s, w, r); }
    forall q | q in t.consumers ensures RecordOk(t, q, t.consumers[q]) { assert RecordOk(s, q, s.consumers[q]); }
    forall w, c | w in t.active && c in CurrentMeta(t, w).consumers ensures Consumed(t, w, c) {
      assert Consumed(s, w, c);
    }
    forall n, h ensures Owns(t, n, h) <==> Owns(s, n, h) {}
  }

  lemma ExactKept(s: State, e: Event)
    requires Exact(s)
    ensures Exact(Step(s, e))
  {
    match e
    case Promote(w, v) => if PromoteAllowed(s, w, v) { PromoteKept(s, w, v); }
    case Bump(w, v) => if BumpAllowed(s, w, v) { BumpKept(s, w, v); }
    case Reconcile(ns, body) => if ReconcileAllowed(s, ns, body) { ReconcileKept(s, ns, body); }
    case Deploy(w, v, meta) => if Step(s, e) != s { BundlesKept(s, Step(s, e)); }
    case DeleteVersion(w, v) => if Step(s, e) != s { BundlesKept(s, Step(s, e)); }
  }

  function Empty(): State {
    State(map[], map[], map[], {}, map[], {})
  }

  /** A slot holds (namespace, worker, version) exactly when that version is active and declares the route; a host's
      slots belong to one namespace that declares the host; and a queue's record names exactly the active
      declaration of that queue. */
  ghost predicate AsDeclared(t: State) {
    && (forall w, r :: Declared(t, w, r) <==> (w in t.active && r in CurrentMeta(t, w).routes))
    && (forall k :: k in t.patterns ==> SlotOk(t, k, t.patterns[k]))
    && (forall k, l :: k in t.patterns && l in t.patterns && k.0 == l.0 ==> t.patterns[k].ns == t.patterns[l].ns)
    && (forall k :: k in t.patterns ==> (t.patterns[k].ns, k.0) in t.hosts)
    && (forall w, c :: Consumed(t, w, c) <==> (w in t.active && c in CurrentMeta(t, w).consumers))
    && (forall q :: q in t.consumers ==> RecordOk(t, q, t.consumers[q]))
  }

  lemma ExactIsAsDeclared(t: State)
    requires Exact(t)
    ensures AsDeclared(t)
  {
    forall w, r ensures Declared(t, w, r) <==> (w in t.active && r in CurrentMeta(t, w).routes) { SlotIff(t, w, r); }
    forall w, c ensures Consumed(t, w, c) <==> (w in t.active && c in CurrentMeta(t, w).consumers) {
      QueueIff(t, w, c);
    }
  }

  lemma SlotIff(s: State, w: Worker, r: Route)
    requires Exact(s)
    ensures Declared(s, w, r) <==> (w in s.active && r in CurrentMeta(s, w).routes)
  {
    if Declared(s, w, r) {
      assert SlotOk(s, KeyOf(r), s.patterns[KeyOf(r)]);
      assert WorkerOf(s.patterns[KeyOf(r)]) == w;
    }
  }

  lemma QueueIff(s: State, w: Worker, c: Consumer)
    requires Exact(s)
    ensures Consumed(s, w, c) <==> (w in s.active && c in CurrentMeta(s, w).consumers)
  {
    if Consumed(s, w, c) {
      assert RecordOk(s, (w.0, c.queue), s.consumers[(w.0, c.queue)]);
      assert (w.0, s.consumers[(w.0, c.queue)].worker) == w;
    }
  }
}
