/** D1 database metadata of one namespace, and the bundles that bind to it: commit, ready, rollback and delete
    racing deploys, promotes, bumps and version deletes. Database ids are never reused, and an id keeps its
    name. Here each transaction is one step; D1Sessions takes them apart into their commands. */
module D1Metadata {
  import opened Prelude

  datatype Database = Database(name: string, ready: bool, provisionalUntil: int)

  type Version = (string, string)     // worker, version

  datatype State = State(
    databases: map<string, Database>,           // by id
    names: map<string, string>,                 // name to id
    ids: set<string>,
    tombstones: set<string>,
    referrers: map<string, set<Version>>,       // by id; a missing key is the empty set
    bundles: map<Version, seq<string>>,         // database ids a version binds to
    active: map<string, string>,
    used: set<string>                           // ids ever generated
  )

  datatype Event =
    | Commit(id: string, name: string, until: int)
    | MarkReady(id: string)
    | Rollback(id: string)
    | RollbackExpired(id: string, now: int)
    | DeleteDatabase(id: string)
    | Deploy(v: Version, refs: seq<string>, indexed: bool)
    | DeleteVersion(v: Version)
    | Promote(v: Version)
    | Bump(worker: string, version: string)

  function ReferrersOf(s: State, id: string): set<Version> {
    if id in s.referrers then s.referrers[id] else {}
  }

  function CommitStep(s: State, id: string, name: string, until: int): State {
    if id in s.used || name in s.names || id in s.databases then s
    else s.(
      databases := s.databases[id := Database(name, false, until)],
      names := s.names[name := id],
      ids := s.ids + {id},
      used := s.used + {id})
  }

  function MarkReadyStep(s: State, id: string): State {
    if id !in s.databases || s.databases[id].ready then s
    else
      var name := s.databases[id].name;
      if name !in s.names || s.names[name] != id then s
      else s.(databases := s.databases[id := s.databases[id].(ready := true)])
  }

  /** Remove the record, its referrers, its set entry, and its name while the name is still its own. */
  function Drop(s: State, id: string): State
    requires id in s.databases
  {
    var name := s.databases[id].name;
    s.(
      databases := s.databases - {id},
      referrers := s.referrers - {id},
      ids := s.ids - {id},
      names := if name in s.names && s.names[name] == id then s.names - {name} else s.names)
  }

  function RollbackStep(s: State, id: string): State {
    if id !in s.databases || s.databases[id].ready then s else Drop(s, id)
  }

  predicate IsExpiredProvisional(d: Database, now: int) {
    !d.ready && d.provisionalUntil <= now
  }

  function RollbackExpiredStep(s: State, id: string, now: int): State {
    if id !in s.databases || !IsExpiredProvisional(s.databases[id], now) then s else RollbackStep(s, id)
  }

  function DeleteDatabaseStep(s: State, id: string): State {
    if id !in s.databases || !s.databases[id].ready || ReferrersOf(s, id) != {} then s
    else Drop(s, id).(tombstones := s.tombstones + {id})
  }

  /** stageD1ReferrerAdds. */
  function AddReferrer(referrers: map<string, set<Version>>, v: Version, refs: seq<string>): map<string, set<Version>> {
    if refs == [] then referrers
    else
      var m, id := AddReferrer(referrers, v, refs[..|refs| - 1]), Last(refs);
      m[id := (if id in m then m[id] else {}) + {v}]
  }

  function RemoveReferrer(s: State, v: Version, refs: seq<string>): map<string, set<Version>> {
    map id | id in s.referrers.Keys :: if id in refs then s.referrers[id] - {v} else s.referrers[id]
  }

  /** A deploy resolves its bindings to ready databases; `indexed` says whether it also records itself. */
  function DeployStep(s: State, v: Version, refs: seq<string>, indexed: bool): State {
    if v in s.bundles || exists id :: id in refs && !(id in s.databases && s.databases[id].ready) then s
    else s.(
      bundles := s.bundles[v := refs],
      referrers := if indexed then AddReferrer(s.referrers, v, refs) else s.referrers)
  }

  function DeleteVersionStep(s: State, v: Version): State {
    if v !in s.bundles || (v.0 in s.active && s.active[v.0] == v.1) then s
    else s.(bundles := s.bundles - {v}, referrers := RemoveReferrer(s, v, s.bundles[v]))
  }

  /** assertBundleDependenciesPresent, then the flip with its referrers. */
  function PromoteStep(s: State, v: Version): State {
    if v !in s.bundles || exists id :: id in s.bundles[v] && id !in s.databases then s
    else s.(active := s.active[v.0 := v.1], referrers := AddReferrer(s.referrers, v, s.bundles[v]))
  }

  function BumpStep(s: State, worker: string, version: string): State {
    if worker !in s.active || (worker, s.active[worker]) !in s.bundles || (worker, version) in s.bundles then s
    else
      var refs := s.bundles[(worker, s.active[worker])];
      if exists id :: id in refs && id !in s.databases then s
      else s.(
        bundles := s.bundles[(worker, version) := refs],
        active := s.active[worker := version],
        referrers := AddReferrer(s.referrers, (worker, version), refs))
  }

  function Step(s: State, e: Event): State {
    match e
    case Commit(id, name, until) => CommitStep(s, id, name, until)
    case MarkReady(id) => MarkReadyStep(s, id)
    case Rollback(id) => RollbackStep(s, id)
    case RollbackExpired(id, now) => RollbackExpiredStep(s, id, now)
    case DeleteDatabase(id) => DeleteDatabaseStep(s, id)
    case Deploy(v, refs, indexed) => DeployStep(s, v, refs, indexed)
    case DeleteVersion(v) => DeleteVersionStep(s, v)
    case Promote(v) => PromoteStep(s, v)
    case Bump(worker, version) => BumpStep(s, worker, version)
  }

  function Run(s: State, es: seq<Event>): State
    decreases |es|
  {
    if es == [] then s else Run(Step(s, es[0]), es[1..])
  }

  // ---- Names ----

  /** Names and records point at each other. */
  predicate NamesOk(s: State) {
    && (forall id :: id in s.databases ==>
          s.databases[id].name in s.names && s.names[s.databases[id].name] == id && id in s.used && id in s.ids)
    && (forall n :: n in s.names ==> s.names[n] in s.databases && s.databases[s.names[n]].name == n)
    && (forall id :: id in s.ids ==> id in s.databases)
    && s.ids <= s.used
  }

  lemma DropNames(s: State, id: string)
    requires NamesOk(s) && id in s.databases
    ensures NamesOk(Drop(s, id))
  {
  }

  lemma NamesKept(s: State, e: Event)
    requires NamesOk(s)
    ensures NamesOk(Step(s, e))
  {
    match e
    case Rollback(id) => if id in s.databases { DropNames(s, id); }
    case RollbackExpired(id, _) => if id in s.databases { DropNames(s, id); }
    case DeleteDatabase(id) => if id in s.databases { DropNames(s, id); }
    case _ =>
  }

  // ---- References ----

  /** Bundles bind to databases that were ready once, and a ready database is not rolled back. */
  predicate RefOk(s: State, id: string) {
    id in s.used && (id in s.databases ==> s.databases[id].ready)
  }

  predicate BundlesOk(s: State) {
    && (forall v, id :: v in s.bundles && id in s.bundles[v] ==> RefOk(s, id))
    && (forall id :: id in s.databases ==> id in s.used)
  }

  /** An active version is there, and each database it binds to is there and knows of it. */
  predicate Bound(s: State, v: Version) {
    v in s.bundles && forall id :: id in s.bundles[v] ==> id in s.databases && v in ReferrersOf(s, id)
  }

  predicate ActiveBound(s: State) {
    forall w :: w in s.active ==> Bound(s, (w, s.active[w]))
  }

  lemma {:induction false} AddReferrerAdds(s: State, v: Version, refs: seq<string>, id: string)
    ensures ReferrersOf(s.(referrers := AddReferrer(s.referrers, v, refs)), id) ==
              ReferrersOf(s, id) + (if id in refs then {v} else {})
  {
    if refs != [] {
      var n := |refs| - 1;
      AddReferrerAdds(s, v, refs[..n], id);
      assert refs == refs[..n] + [refs[n]];
    }
  }

  lemma DeployedRefs(s: State, v: Version, refs: seq<string>, indexed: bool, id: string)
    requires BundlesOk(s) && DeployStep(s, v, refs, indexed) != s && id in refs
    ensures RefOk(s, id)
  {
    assert id in s.databases && s.databases[id].ready;
  }

  lemma RefKept(s: State, e: Event, id: string)
    requires RefOk(s, id)
    ensures RefOk(Step(s, e), id)
  {
    match e
    case Commit(x, name, until) => assert x == id ==> CommitStep(s, x, name, until) == s;
    case _ =>
  }

  lemma UsedKept(s: State, e: Event)
    requires forall id :: id in s.databases ==> id in s.used
    ensures forall id :: id in Step(s, e).databases ==> id in Step(s, e).used
  {
  }

  lemma BundlesKept(s: State, e: Event)
    requires BundlesOk(s)
    ensures BundlesOk(Step(s, e))
  {
    var t := Step(s, e);
    UsedKept(s, e);
    forall v, id | v in t.bundles && id in t.bundles[v] ensures RefOk(t, id) {
      if v in s.bundles {
        assert id in s.bundles[v];
      } else if e.Deploy? {
        DeployedRefs(s, e.v, e.refs, e.indexed, id);
      } else {
        assert e.Bump? && id in s.bundles[(e.worker, s.active[e.worker])];
      }
      RefKept(s, e, id);
    }
  }

  /** A drop spares every database an active version binds to. */
  lemma DropBound(s: State, id: string, w: string)
    requires w in s.active && Bound(s, (w, s.active[w])) && id in s.databases && BundlesOk(s)
    requires !s.databases[id].ready || ReferrersOf(s, id) == {}
    ensures Bound(Drop(s, id), (w, s.active[w]))
  {
    var v, t := (w, s.active[w]), Drop(s, id);
    forall x | x in t.bundles[v] ensures x in t.databases && v in ReferrersOf(t, x) {
      assert RefOk(s, x);
      assert x in s.databases && v in ReferrersOf(s, x);
    }
  }

  lemma AddedBound(s: State, t: State, v: Version, refs: seq<string>, w: string)
    requires w in s.active && Bound(s, (w, s.active[w])) && t.databases == s.databases
    requires t.referrers == AddReferrer(s.referrers, v, refs)
    requires (w, s.active[w]) in t.bundles && t.bundles[(w, s.active[w])] == s.bundles[(w, s.active[w])]
    ensures Bound(t, (w, s.active[w]))
  {
    var x := (w, s.active[w]);
    forall id | id in t.bundles[x] ensures id in t.databases && x in ReferrersOf(t, id) {
      assert id in s.databases && x in ReferrersOf(s, id);
      AddReferrerAdds(s, v, refs, id);
    }
  }

  lemma PromoteBound(s: State, v: Version)
    requires ActiveBound(s)
    ensures ActiveBound(PromoteStep(s, v))
  {
    var t := PromoteStep(s, v);
    if t != s {
      forall w | w in t.active ensures Bound(t, (w, t.active[w])) {
        if w == v.0 {
          forall id | id in s.bundles[v] ensures v in ReferrersOf(t, id) { AddReferrerAdds(s, v, s.bundles[v], id); }
        } else {
          AddedBound(s, t, v, s.bundles[v], w);
        }
      }
    }
  }

  lemma BumpBound(s: State, worker: string, version: string)
    requires ActiveBound(s)
    ensures ActiveBound(BumpStep(s, worker, version))
  {
    var t := BumpStep(s, worker, version);
    if t != s {
      var v, refs := (worker, version), s.bundles[(worker, s.active[worker])];
      forall w | w in t.active ensures Bound(t, (w, t.active[w])) {
        if w == worker {
          forall id | id in refs ensures v in ReferrersOf(t, id) { AddReferrerAdds(s, v, refs, id); }
        } else {
          assert Bound(s, (w, s.active[w]));
          AddedBound(s, t, v, refs, w);
        }
      }
    }
  }

  lemma DeployBound(s: State, v: Version, refs: seq<string>, indexed: bool)
    requires ActiveBound(s)
    ensures ActiveBound(DeployStep(s, v, refs, indexed))
  {
    var t := DeployStep(s, v, refs, indexed);
    forall w | w in t.active ensures Bound(t, (w, t.active[w])) {
      assert Bound(s, (w, s.active[w]));
      if t != s && indexed { AddedBound(s, t, v, refs, w); }
    }
  }

  lemma DeleteVersionBound(s: State, v: Version)
    requires ActiveBound(s)
    ensures ActiveBound(DeleteVersionStep(s, v))
  {
    var t := DeleteVersionStep(s, v);
    forall w | w in t.active ensures Bound(t, (w, t.active[w])) {
      assert Bound(s, (w, s.active[w]));
      forall id | id in s.bundles[(w, s.active[w])] && t != s ensures (w, s.active[w]) in ReferrersOf(t, id) {
        assert (w, s.active[w]) in ReferrersOf(s, id);
      }
    }
  }

  /** Steps on metadata: commits and readies leave referrers, drops spare what is bound. */
  lemma MetadataBound(s: State, e: Event)
    requires ActiveBound(s) && BundlesOk(s)
    requires e.Commit? || e.MarkReady? || e.Rollback? || e.RollbackExpired? || e.DeleteDatabase?
    ensures ActiveBound(Step(s, e))
  {
    var t := Step(s, e);
    forall w | w in t.active ensures Bound(t, (w, t.active[w])) {
      assert Bound(s, (w, s.active[w]));
      if t != s && !e.Commit? && !e.MarkReady? {
        DropBound(s, e.id, w);
        if e.DeleteDatabase? {
          var d := Drop(s, e.id);
          assert forall id :: ReferrersOf(t, id) == ReferrersOf(d, id);
        }
      }
    }
  }

  lemma ActiveBoundKept(s: State, e: Event)
    requires ActiveBound(s) && BundlesOk(s)
    ensures ActiveBound(Step(s, e))
  {
    match e
    case Promote(v) => PromoteBound(s, v);
    case Bump(worker, version) => BumpBound(s, worker, version);
    case Deploy(v, refs, indexed) => DeployBound(s, v, refs, indexed);
    case DeleteVersion(v) => DeleteVersionBound(s, v);
    case _ => MetadataBound(s, e);
  }

  function Empty(): State {
    State(map[], map[], {}, {}, map[], map[], map[], {})
  }

  predicate Consistent(s: State) {
    NamesOk(s) && BundlesOk(s) && ActiveBound(s)
  }

  lemma ConsistentKept(s: State, e: Event)
    requires Consistent(s)
    ensures Consistent(Step(s, e))
  {
    NamesKept(s, e);
    BundlesKept(s, e);
    ActiveBoundKept(s, e);
  }

  lemma {:induction false} Along(s: State, es: seq<Event>)
    requires Consistent(s)
    ensures Consistent(Run(s, es))
    decreases |es|
  {
    if es != [] {
      ConsistentKept(s, es[0]);
      Along(Step(s, es[0]), es[1..]);
    }
  }

  /** A live database's name leads back to it and to no other, and no name leads to a database that is gone. */
  ghost predicate UniqueNames(t: State) {
    && (forall id :: id in t.databases ==> t.databases[id].name in t.names && t.names[t.databases[id].name] == id)
    && (forall a, b :: a in t.databases && b in t.databases && t.databases[a].name == t.databases[b].name ==> a == b)
    && (forall n :: n in t.names ==> t.names[n] in t.databases && t.databases[t.names[n]].name == n)
  }

  /** Every database an active version binds to is there, ready, and knows of the version. */
  ghost predicate ReferencesHold(t: State) {
    forall w, id :: w in t.active && (w, t.active[w]) in t.bundles && id in t.bundles[(w, t.active[w])] ==>
      id in t.databases && t.databases[id].ready && (w, t.active[w]) in ReferrersOf(t, id)
  }

  lemma ConsistentMeans(t: State)
    requires Consistent(t)
    ensures UniqueNames(t) && ReferencesHold(t)
  {
    forall w, id | w in t.active && (w, t.active[w]) in t.bundles && id in t.bundles[(w, t.active[w])]
      ensures id in t.databases && t.databases[id].ready && (w, t.active[w]) in ReferrersOf(t, id)
    {
      assert Bound(t, (w, t.active[w])) && RefOk(t, id);
    }
  }

  /** References, whether or not deploys record themselves in the index, since promotes and bumps do: no order of
      commits, readies, rollbacks, deletes, deploys, promotes and bumps leaves an active version bound to a database
      that is gone or not ready. */
  lemma ActiveVersionsKeepTheirDatabases(es: seq<Event>)
    ensures ReferencesHold(Run(Empty(), es))
  {
    Along(Empty(), es);
    ConsistentMeans(Run(Empty(), es));
  }

  // ---- The referrer index ----

  /** A version is listed under a database exactly when it is retained and binds to it, and the database is there. */
  ghost predicate IndexExact(s: State) {
    && (forall id, v :: v in ReferrersOf(s, id) <==> v in s.bundles && id in s.bundles[v])
    && (forall id, v :: v in ReferrersOf(s, id) ==> id in s.databases)
  }

  /** Recording a version in the index, for one that is retained with these references and listed nowhere else. */
  lemma RecordedExact(s: State, t: State, v: Version, refs: seq<string>)
    requires IndexExact(s) && t.databases == s.databases && t.referrers == AddReferrer(s.referrers, v, refs)
    requires t.bundles == s.bundles[v := refs] && (v in s.bundles ==> s.bundles[v] == refs)
    requires forall id :: id in refs ==> id in s.databases
    ensures IndexExact(t)
  {
    forall id ensures ReferrersOf(t, id) == ReferrersOf(s, id) + (if id in refs then {v} else {}) {
      AddReferrerAdds(s, v, refs, id);
    }
  }

  lemma RemovedExact(s: State, v: Version)
    requires IndexExact(s)
    ensures IndexExact(DeleteVersionStep(s, v))
  {
    var t := DeleteVersionStep(s, v);
    if t != s {
      forall id ensures ReferrersOf(t, id) == ReferrersOf(s, id) - {v} {
        assert v in ReferrersOf(s, id) <==> id in s.bundles[v];
      }
    }
  }

  /** A database goes only when nothing lists it: a delete tests for that, and a rolled back one was never ready. */
  lemma DroppedExact(s: State, id: string)
    requires IndexExact(s) && BundlesOk(s) && id in s.databases
    requires !s.databases[id].ready || ReferrersOf(s, id) == {}
    ensures IndexExact(Drop(s, id))
  {
    var t := Drop(s, id);
    forall v ensures v !in ReferrersOf(s, id) { assert v in s.bundles && id in s.bundles[v] ==> RefOk(s, id); }
    assert forall x :: ReferrersOf(t, x) == ReferrersOf(s, x);
  }

  lemma IndexKept(s: State, e: Event)
    requires IndexExact(s) && BundlesOk(s) && (e.Deploy? ==> e.indexed)
    ensures IndexExact(Step(s, e))
  {
    var t := Step(s, e);
    if t != s {
      match e
      case Rollback(id) => DroppedExact(s, id);
      case RollbackExpired(id, _) => DroppedExact(s, id);
      case DeleteDatabase(id) =>
        DroppedExact(s, id);
        assert forall x :: ReferrersOf(t, x) == ReferrersOf(Drop(s, id), x);
      case Deploy(v, refs, _) => RecordedExact(s, t, v, refs);
      case DeleteVersion(v) => RemovedExact(s, v);
      case Promote(v) => RecordedExact(s, t, v, s.bundles[v]);
      case Bump(w, version) => RecordedExact(s, t, (w, version), s.bundles[(w, s.active[w])]);
      case _ => assert forall x :: ReferrersOf(t, x) == ReferrersOf(s, x);
    }
  }

  predicate Indexed(es: seq<Event>) {
    forall i :: 0 <= i < |es| ==> es[i].Deploy? ==> es[i].indexed
  }

  lemma {:induction false} IndexAlong(s: State, es: seq<Event>)
    requires Consistent(s) && IndexExact(s) && Indexed(es)
    ensures Consistent(Run(s, es)) && IndexExact(Run(s, es))
    decreases |es|
  {
    if es != [] {
      ConsistentKept(s, es[0]);
      IndexKept(s, es[0]);
      IndexAlong(Step(s, es[0]), es[1..]);
    }
  }

  /** Every database a retained version binds to, active or not, is there and ready, and lists exactly those
      versions. */
  ghost predicate RetainedHold(s: State) {
    && (forall v, id :: v in s.bundles && id in s.bundles[v] ==> id in s.databases && s.databases[id].ready)
    && (forall v, id :: id in s.databases ==> (v in ReferrersOf(s, id) <==> v in s.bundles && id in s.bundles[v]))
  }

  lemma ExactMeans(s: State)
    requires BundlesOk(s) && IndexExact(s)
    ensures RetainedHold(s)
  {
    forall v, id | v in s.bundles && id in s.bundles[v] ensures id in s.databases && s.databases[id].ready {
      assert v in ReferrersOf(s, id) && RefOk(s, id);
    }
  }

  predicate BoundBySome(s: State, id: string) {
    exists v :: v in s.bundles && id in s.bundles[v]
  }

  /** A ready database's delete changes nothing when a retained version binds it, and otherwise removes it. */
  ghost predicate DeletesWhenUnbound(s: State, t: State, id: string)
    requires id in s.databases
  {
    && (t == s <==> BoundBySome(s, id))
    && (t != s ==>
          && t.databases == s.databases - {id} && id in t.tombstones && s.databases[id].name !in t.names
          && t.bundles == s.bundles && t.active == s.active)
  }

  lemma DeleteDecides(s: State, id: string)
    requires Consistent(s) && IndexExact(s) && id in s.databases && s.databases[id].ready
    ensures DeletesWhenUnbound(s, Step(s, DeleteDatabase(id)), id)
  {
    var t := Step(s, DeleteDatabase(id));
    if ReferrersOf(s, id) == {} {
      assert forall v :: v !in ReferrersOf(s, id);
      assert id !in t.databases;
    } else {
      var v :| v in ReferrersOf(s, id);
      assert v in s.bundles && id in s.bundles[v];
    }
  }

  lemma EmptyIsExact()
    ensures Consistent(Empty()) && IndexExact(Empty())
  {
  }

  lemma DeleteWhenUnlisted(s: State, id: string)
    requires Consistent(s) && id in s.databases && s.databases[id].ready
    ensures var t := Step(s, DeleteDatabase(id));
      && (t == s <==> exists v :: v in ReferrersOf(s, id))
      && (t != s ==> id !in t.databases && id in t.tombstones && s.databases[id].name !in t.names && ReferencesHold(t))
  {
    hide BundlesOk, ActiveBound, ReferencesHold;
    var t := Step(s, DeleteDatabase(id));
    if ReferrersOf(s, id) == {} { assert id !in t.databases; }
    ConsistentKept(s, DeleteDatabase(id));
    ConsistentMeans(t);
  }

  /** Deletability, on every run of whole transactions: a ready database's delete changes nothing exactly when the
      index lists a version for it, and otherwise frees its name. While every deploy records itself, that is exactly
      when a retained version binds to it. */
  lemma DeletedExactlyWhenUnreferenced(es: seq<Event>, id: string)
    requires var s := Run(Empty(), es); id in s.databases && s.databases[id].ready
    ensures var s := Run(Empty(), es);
      var t := Step(s, DeleteDatabase(id));
      && (t == s <==> exists v :: v in ReferrersOf(s, id))
      && (t != s ==>
            && id !in t.databases && id in t.tombstones && s.databases[id].name !in t.names
            && forall w :: w in t.active && (w, t.active[w]) in t.bundles ==> id !in t.bundles[(w, t.active[w])])
      && (Indexed(es) ==> DeletesWhenUnbound(s, t, id))
  {
    hide Step, Run, Empty, Indexed, Consistent, IndexExact, DeletesWhenUnbound;
    EmptyIsExact();
    Along(Empty(), es);
    DeleteWhenUnlisted(Run(Empty(), es), id);
    if Indexed(es) {
      IndexAlong(Empty(), es);
      DeleteDecides(Run(Empty(), es), id);
    }
  }
}
