/** The control plane's writers as they run: loops that check and plan on what a session read, and stage one
    transaction on what is stored. A transaction that goes through keeps the projections exactly what the active
    bundles declare. */
module ControlStore {
  import opened Prelude
  import opened Projections
  import Q = ProjectionProofs
  import S = ControlSessions
  import SessionProofs

  lemma NoHosts(nsHosts: set<(string, string)>, patterns: map<Slot, Projection>, ns: string, removed: set<Slot>,
                routes: seq<Route>)
    ensures NsHostsAfter(nsHosts, patterns, ns, {}, removed, routes) == nsHosts
  {
  }

  lemma OneMoreHost(nsHosts: set<(string, string)>, patterns: map<Slot, Projection>, ns: string, done: set<string>,
                    h: string, removed: set<Slot>, routes: seq<Route>)
    requires h !in done
    ensures var before := NsHostsAfter(nsHosts, patterns, ns, done, removed, routes);
      NsHostsAfter(nsHosts, patterns, ns, done + {h}, removed, routes) ==
        if OwnsAfter(ns, h, patterns, removed, routes) then before + {(ns, h)} else before - {(ns, h)}
  {
    hide OwnsAfter;
  }

  class Store {
    var bundles: map<(Worker, string), Meta>
    var active: map<Worker, string>
    var patterns: map<Slot, Projection>
    var nsHosts: set<(string, string)>
    var consumers: map<Queue, Record>
    var hosts: set<(string, string)>

    ghost predicate Valid()
      reads this
    {
      Q.Exact(View())
    }

    constructor ()
      ensures Valid() && View() == Q.Empty()
    {
      bundles, active, patterns, nsHosts, consumers, hosts := map[], map[], map[], {}, map[], {};
    }

    ghost function View(): State
      reads this
    {
      State(bundles, active, patterns, nsHosts, consumers, hosts)
    }

    /** What a clean session read of the keys is what is stored. */
    ghost predicate Saw(seen: State, dirty: bool, keys: set<S.Key>)
      reads this
    {
      !dirty ==> SessionProofs.SameAll(S.Data(seen, {}), S.Data(View(), {}), keys)
    }

    method DeclaresHosts(seen: State, ns: string, routes: seq<Route>) returns (ok: bool)
      ensures ok <==> HostsDeclared(seen, ns, routes)
    {
      for i := 0 to |routes|
        invariant forall j :: 0 <= j < i ==> (ns, routes[j].host) in seen.hosts
      {
        if (ns, routes[i].host) !in seen.hosts { return false; }
      }
      ok := true;
    }

    /** Whether a host holds only slots of the namespace. */
    method HostIsOurs(seen: State, ns: string, h: string) returns (ok: bool)
      ensures ok <==> forall k :: k in seen.patterns && k.0 == h ==> seen.patterns[k].ns == ns
    {
      var rest := seen.patterns.Keys;
      while rest != {}
        invariant rest <= seen.patterns.Keys
        invariant forall k :: k in seen.patterns && k !in rest && k.0 == h ==> seen.patterns[k].ns == ns
        decreases |rest|
      {
        var k :| k in rest;
        rest := rest - {k};
        if k.0 == h && seen.patterns[k].ns != ns { return false; }
      }
      ok := true;
    }

    method RoutesAreFree(seen: State, w: Worker, routes: seq<Route>) returns (ok: bool)
      ensures ok <==> RoutesFree(seen, w, routes)
    {
      for i := 0 to |routes|
        invariant forall j, k :: 0 <= j < i && k in seen.patterns && k.0 == routes[j].host ==>
          seen.patterns[k].ns == w.0
        invariant forall j :: 0 <= j < i && KeyOf(routes[j]) in seen.patterns ==>
          seen.patterns[KeyOf(routes[j])].worker == w.1
      {
        assert routes[i] in routes;
        var ours := HostIsOurs(seen, w.0, routes[i].host);
        if !ours { return false; }
        if KeyOf(routes[i]) in seen.patterns && seen.patterns[KeyOf(routes[i])].worker != w.1 { return false; }
      }
      ok := true;
    }

    method QueuesAreFree(seen: State, w: Worker, cs: seq<Consumer>) returns (ok: bool)
      ensures ok <==> QueuesFree(seen, w, cs)
    {
      for i := 0 to |cs|
        invariant forall j :: 0 <= j < i && (w.0, cs[j].queue) in seen.consumers ==>
          seen.consumers[(w.0, cs[j].queue)].worker == w.1
      {
        if (w.0, cs[i].queue) in seen.consumers && seen.consumers[(w.0, cs[i].queue)].worker != w.1 { return false; }
      }
      ok := true;
    }

    /** Whether a slot of `h` that the transaction leaves belongs to the namespace. */
    method OwnsRemaining(seen: State, ns: string, h: string, removed: set<Slot>, routes: seq<Route>)
      returns (owns: bool)
      ensures owns <==> OwnsAfter(ns, h, seen.patterns, removed, routes)
    {
      for i := 0 to |routes|
        invariant forall j :: 0 <= j < i ==> routes[j].host != h
      {
        if routes[i].host == h {
          assert routes[i] in routes;
          return true;
        }
      }
      assert h !in HostsOf(routes);
      var rest := seen.patterns.Keys;
      while rest != {}
        invariant rest <= seen.patterns.Keys
        invariant forall k :: k in seen.patterns && k !in rest ==>
          !(k.0 == h && k !in removed && seen.patterns[k].ns == ns)
        decreases |rest|
      {
        var k :| k in rest;
        rest := rest - {k};
        if k.0 == h && k !in removed && seen.patterns[k].ns == ns { return true; }
      }
      owns := false;
    }

    method StageNsHosts(seen: State, ns: string, affected: set<string>, removed: set<Slot>, routes: seq<Route>)
      modifies this`nsHosts
      ensures nsHosts == NsHostsAfter(old(nsHosts), seen.patterns, ns, affected, removed, routes)
    {
      hide NsHostsAfter, OwnsAfter;
      NoHosts(nsHosts, seen.patterns, ns, removed, routes);
      var rest := affected;
      assert affected - rest == {};
      while rest != {}
        invariant rest <= affected
        invariant nsHosts == NsHostsAfter(old(nsHosts), seen.patterns, ns, affected - rest, removed, routes)
        decreases |rest|
      {
        var h :| h in rest;
        var owns := OwnsRemaining(seen, ns, h, removed, routes);
        assert affected - (rest - {h}) == (affected - rest) + {h};
        OneMoreHost(old(nsHosts), seen.patterns, ns, affected - rest, h, removed, routes);
        rest := rest - {h};
        nsHosts := if owns then nsHosts + {(ns, h)} else nsHosts - {(ns, h)};
      }
      assert affected - rest == affected;
    }

    method StageRouteRemovals(routes: seq<Route>, kept: set<Slot>)
      modifies this`patterns
      ensures patterns == old(patterns) - (RouteKeys(routes) - kept)
    {
      for i := 0 to |routes|
        invariant patterns == old(patterns) - (RouteKeys(routes[..i]) - kept)
      {
        assert routes[..i + 1] == routes[..i] + [routes[i]];
        assert RouteKeys(routes[..i + 1]) == RouteKeys(routes[..i]) + {KeyOf(routes[i])};
        if KeyOf(routes[i]) !in kept { patterns := patterns - {KeyOf(routes[i])}; }
      }
      assert routes[..|routes|] == routes;
    }

    method StageVersionFlip(w: Worker, version: string, routes: seq<Route>)
      modifies this`patterns, this`active
      ensures patterns == Install(old(patterns), w, version, routes) && active == old(active)[w := version]
    {
      for i := 0 to |routes|
        invariant patterns == Install(old(patterns), w, version, routes[..i]) && active == old(active)
      {
        assert routes[..i + 1][..i] == routes[..i];
        patterns := patterns[KeyOf(routes[i]) := Project(w, version, routes[i])];
      }
      assert routes[..|routes|] == routes;
      active := active[w := version];
    }

    method StageConsumers(w: Worker, version: string, cs: seq<Consumer>)
      modifies this`consumers
      ensures consumers == InstallConsumers(old(consumers), w, version, cs)
    {
      for i := 0 to |cs|
        invariant consumers == InstallConsumers(old(consumers), w, version, cs[..i])
      {
        assert cs[..i + 1][..i] == cs[..i];
        consumers := consumers[(w.0, cs[i].queue) := Record(w.1, version, cs[i].config)];
      }
      assert cs[..|cs|] == cs;
    }

    method StageConsumerRemovals(ns: string, cs: seq<Consumer>, kept: set<string>)
      modifies this`consumers
      ensures consumers == old(consumers) - (set q | q in Queues(cs) - kept :: (ns, q))
    {
      for i := 0 to |cs|
        invariant consumers == old(consumers) - (set q | q in Queues(cs[..i]) - kept :: (ns, q))
      {
        assert cs[..i + 1] == cs[..i] + [cs[i]];
        assert Queues(cs[..i + 1]) == Queues(cs[..i]) + {cs[i].queue};
        if cs[i].queue !in kept { consumers := consumers - {(ns, cs[i].queue)}; }
      }
      assert cs[..|cs|] == cs;
    }

    /** The checks of a promote, on what was read. */
    method MayPromote(seen: State, w: Worker, version: string) returns (ok: bool)
      ensures ok <==> (w in seen.active ==> (w, seen.active[w]) in seen.bundles) && PromoteAllowed(seen, w, version)
      ensures ok ==> (w, version) in seen.bundles
    {
      if (w, version) !in seen.bundles || (w in seen.active && (w, seen.active[w]) !in seen.bundles) { return false; }
      var meta := seen.bundles[(w, version)];
      var declared := DeclaresHosts(seen, w.0, meta.routes);
      var free := RoutesAreFree(seen, w, meta.routes);
      var queues := QueuesAreFree(seen, w, meta.consumers);
      ok := declared && free && queues;
    }

    /** The writes of a promote. */
    method StagePromote(seen: State, w: Worker, version: string)
      requires (w, version) in seen.bundles
      modifies this
      ensures View() == PromoteWrites(old(View()), seen, w, version)
    {
      var meta := seen.bundles[(w, version)];
      var was := Meta([], []);
      if w in seen.active && (w, seen.active[w]) in seen.bundles { was := seen.bundles[(w, seen.active[w])]; }
      var kept := RouteKeys(meta.routes);
      StageNsHosts(seen, w.0, HostsOf(was.routes) + HostsOf(meta.routes), RouteKeys(was.routes) - kept, meta.routes);
      StageRouteRemovals(was.routes, kept);
      StageVersionFlip(w, version, meta.routes);
      StageConsumers(w, version, meta.consumers);
      StageConsumerRemovals(w.0, was.consumers, Queues(meta.consumers));
    }

    /** promoteWithRoutes after its reads: a promote that goes through is the atomic one, and afterwards every slot,
        reverse index entry and queue record is what the active bundles declare. */
    method PromoteWithRoutes(seen: State, dirty: bool, w: Worker, version: string) returns (ok: bool)
      requires Valid() && Saw(seen, dirty, SessionProofs.PromoteKeys(seen, w, version))
      modifies this
      ensures Valid() && View() == if ok then Step(old(View()), Promote(w, version)) else old(View())
      ensures ok ==> active == old(active)[w := version] && Q.AsDeclared(View())
      ensures !dirty ==> (ok <==> PromoteAllowed(old(View()), w, version))
    {
      hide Q.Exact, Q.AsDeclared, PromoteAllowed, PromoteWrites;
      ghost var before := View();
      PromoteIsAtomic(seen, before, dirty, w, version);
      Q.ExactKept(before, Promote(w, version));
      Q.ExactIsAsDeclared(Step(before, Promote(w, version)));
      ok := MayPromote(seen, w, version);
      if !ok || dirty { return false; }
      StagePromote(seen, w, version);
    }

    method MayBump(seen: State, w: Worker, version: string) returns (ok: bool)
      requires (w, version) !in seen.bundles
      ensures ok <==> BumpAllowed(seen, w, version)
      ensures ok ==> w in seen.active && (w, seen.active[w]) in seen.bundles
    {
      if w !in seen.active || (w, seen.active[w]) !in seen.bundles { return false; }
      ok := DeclaresHosts(seen, w.0, seen.bundles[(w, seen.active[w])].routes);
    }

    /** COPY and the flip. */
    method StageBump(seen: State, w: Worker, version: string)
      requires w in seen.active && (w, seen.active[w]) in seen.bundles
      modifies this
      ensures View() == BumpWrites(old(View()), seen, w, version)
    {
      var meta := seen.bundles[(w, seen.active[w])];
      if (w, seen.active[w]) in bundles { bundles := bundles[(w, version) := bundles[(w, seen.active[w])]]; }
      StageVersionFlip(w, version, meta.routes);
      StageConsumers(w, version, meta.consumers);
    }

    /** bumpActiveAndPromote after its reads, with a version number of its own. */
    method BumpActiveAndPromote(seen: State, dirty: bool, w: Worker, version: string) returns (ok: bool)
      requires Valid() && (w, version) !in bundles && (w, version) !in seen.bundles
      requires Saw(seen, dirty, {S.Routes(w.0), S.Hosts(w.0)} + S.CurrentKeys(seen, w))
      modifies this
      ensures Valid() && View() == if ok then Step(old(View()), Bump(w, version)) else old(View())
      ensures ok ==> active == old(active)[w := version] && Q.AsDeclared(View())
      ensures !dirty ==> (ok <==> BumpAllowed(old(View()), w, version))
    {
      hide Q.Exact, Q.AsDeclared, BumpAllowed, BumpWrites;
      ghost var before := View();
      BumpIsAtomic(seen, before, dirty, w, version);
      Q.ExactKept(before, Bump(w, version));
      Q.ExactIsAsDeclared(Step(before, Bump(w, version)));
      ok := MayBump(seen, w, version);
      if !ok || dirty { return false; }
      StageBump(seen, w, version);
    }
  }

  lemma BumpIsAtomic(seen: State, stored: State, dirty: bool, w: Worker, version: string)
    requires (w, version) !in stored.bundles && (w, version) !in seen.bundles
    requires !dirty ==>
      SessionProofs.SameAll(S.Data(seen, {}), S.Data(stored, {}),
                            {S.Routes(w.0), S.Hosts(w.0)} + S.CurrentKeys(seen, w))
    ensures !dirty ==>
      && (BumpAllowed(seen, w, version) <==> BumpAllowed(stored, w, version))
      && (BumpAllowed(seen, w, version) ==>
            && BumpWrites(stored, seen, w, version) == Step(stored, Bump(w, version))
            && Step(stored, Bump(w, version)).active == stored.active[w := version])
  {
    if !dirty { SessionProofs.BumpAgrees(S.Data(seen, {}), S.Data(stored, {}), w, version); }
  }

  lemma PromoteStepIs(s: State, w: Worker, version: string)
    ensures PromoteAllowed(s, w, version) ==>
      && (w, version) in s.bundles && Step(s, Promote(w, version)) == PromoteWrites(s, s, w, version)
      && Step(s, Promote(w, version)).active == s.active[w := version]
  {
  }

  lemma ActiveHaveBundles(s: State, w: Worker)
    requires Q.Exact(s)
    ensures w in s.active ==> (w, s.active[w]) in s.bundles
  {
  }

  /** What a clean session planned is what the stored state asks for. */
  lemma PromoteIsAtomic(seen: State, stored: State, dirty: bool, w: Worker, version: string)
    requires Q.Exact(stored)
    requires !dirty ==>
      SessionProofs.SameAll(S.Data(seen, {}), S.Data(stored, {}), SessionProofs.PromoteKeys(seen, w, version))
    ensures !dirty ==>
      && ((w in seen.active ==> (w, seen.active[w]) in seen.bundles) && PromoteAllowed(seen, w, version) <==>
            PromoteAllowed(stored, w, version))
      && (PromoteAllowed(seen, w, version) ==>
            && PromoteWrites(stored, seen, w, version) == Step(stored, Promote(w, version))
            && Step(stored, Promote(w, version)).active == stored.active[w := version])
  {
    hide Q.Exact, PromoteAllowed, PromoteWrites, Step;
    if !dirty {
      var o, d := S.Data(seen, {}), S.Data(stored, {});
      PromoteStepIs(seen, w, version);
      PromoteStepIs(stored, w, version);
      ActiveHaveBundles(stored, w);
      SessionProofs.PromoteVerdict(o, d, w, version);
      assert S.Same(o, d, S.Routes(w.0));
      SessionProofs.SameCurrent(o, d, w);
      if w in seen.active { assert S.Same(o, d, S.Bundle(w, seen.active[w])); }
      if PromoteAllowed(seen, w, version) { SessionProofs.PromoteAgrees(o, d, w, version); }
    }
  }

  // ---- Rebuilding the declared-host indexes ----

  predicate Has(byHost: map<string, set<string>>, h: string, ns: string) {
    h in byHost && ns in byHost[h]
  }

  /** One of the first `n` scopes is `ns` and lists `h`. */
  predicate Listed(scopes: seq<(string, seq<string>)>, n: nat, h: string, ns: string)
    requires n <= |scopes|
  {
    exists i :: 0 <= i < n && scopes[i].0 == ns && h in scopes[i].1
  }

  lemma ListedNext(scopes: seq<(string, seq<string>)>, n: nat, h: string, ns: string)
    requires n < |scopes|
    ensures Listed(scopes, n + 1, h, ns) <==> Listed(scopes, n, h, ns) || (scopes[n].0 == ns && h in scopes[n].1)
  {
  }

  /** rebuildDeclaredHostIndexes' grouping of the hosts it read, one scope after another: the inverse of
      the scopes' host lists, without empty sets and without empty host names. */
  method GroupByHost(scopes: seq<(string, seq<string>)>) returns (byHost: map<string, set<string>>)
    ensures forall h :: h in byHost ==> byHost[h] != {}
    ensures forall h, ns :: Has(byHost, h, ns) <==> h != "" && Listed(scopes, |scopes|, h, ns)
  {
    byHost := map[];
    for i := 0 to |scopes|
      invariant forall h :: h in byHost ==> byHost[h] != {}
      invariant forall h, ns :: Has(byHost, h, ns) <==> h != "" && Listed(scopes, i, h, ns)
    {
      ghost var before := byHost;
      var (ns, members) := scopes[i];
      for j := 0 to |members|
        invariant forall h :: h in byHost ==> byHost[h] != {}
        invariant forall h, n :: Has(byHost, h, n) <==> Has(before, h, n) || (h != "" && n == ns && h in members[..j])
      {
        ghost var so := byHost;
        var host := members[j];
        assert members[..j + 1] == members[..j] + [host];
        if host != "" {
          byHost := byHost[host := (if host in byHost then byHost[host] else {}) + {ns}];
          assert forall h, n :: Has(byHost, h, n) <==> Has(so, h, n) || (h == host && n == ns);
        }
      }
      assert members[..|members|] == members;
      forall h, n ensures Has(byHost, h, n) <==> h != "" && Listed(scopes, i + 1, h, n) {
        ListedNext(scopes, i, h, n);
      }
    }
  }

  function AllKeys(pages: seq<seq<string>>): set<string> {
    if pages == [] then {} else AllKeys(pages[..|pages| - 1]) + Keys(Last(pages))
  }

  lemma {:induction false} PrefixKeys(pages: seq<seq<string>>, n: nat)
    requires n <= |pages|
    ensures AllKeys(pages[..n]) <= AllKeys(pages)
  {
    if n < |pages| {
      var m := |pages| - 1;
      assert pages[..m][..n] == pages[..n];
      PrefixKeys(pages[..m], n);
    } else {
      assert pages[..n] == pages;
    }
  }

  function Keys(page: seq<string>): set<string> {
    set k | k in page
  }

  method AddPage(found: set<string>, page: seq<string>, maxEntries: nat) returns (next: Option<set<string>>)
    requires |found| <= maxEntries
    ensures next.Some? <==> |found + Keys(page)| <= maxEntries
    ensures next.Some? ==> next.value == found + Keys(page)
  {
    var keys := found;
    for j := 0 to |page|
      invariant keys == found + Keys(page[..j]) && |keys| <= maxEntries
    {
      assert page[..j + 1] == page[..j] + [page[j]];
      if page[j] !in keys {
        if |keys| >= maxEntries {
          SubsetSize(keys + {page[j]}, found + Keys(page));
          return None;
        }
        keys := keys + {page[j]};
      }
    }
    assert page[..|page|] == page;
    next := Some(keys);
  }

  /** scanKeys: the distinct keys of all pages, or failure exactly when there are more than the limit. */
  method ScanKeys(pages: seq<seq<string>>, maxEntries: nat) returns (keys: Option<set<string>>)
    ensures keys.Some? <==> |AllKeys(pages)| <= maxEntries
    ensures keys.Some? ==> keys.value == AllKeys(pages)
  {
    var found: set<string> := {};
    for i := 0 to |pages|
      invariant found == AllKeys(pages[..i]) && |found| <= maxEntries
    {
      assert pages[..i + 1][..i] == pages[..i];
      PrefixKeys(pages, i + 1);
      var next := AddPage(found, pages[i], maxEntries);
      if next.None? {
        SubsetSize(found + Keys(pages[i]), AllKeys(pages));
        return None;
      }
      found := next.value;
    }
    assert pages[..|pages|] == pages;
    keys := Some(found);
  }
}
