/** The D1 metadata writers as they run: each decides on what its session read and stages one transaction, which Redis
    aborts when a watched key changed. Names, records and references stay consistent, and the referrer index exact. */
module D1Store {
  import opened Prelude
  import opened D1Metadata
  import S = D1Sessions

  datatype CommitResult = Committed | NameExists | IdCollision | CommitRetry

  datatype ReadyResult = NowReady | NotProvisional | AliasMismatch | ReadyRetry

  lemma StoreKept(s: State, e: Event)
    requires Consistent(s) && IndexExact(s) && !e.Deploy?
    ensures Consistent(Step(s, e)) && IndexExact(Step(s, e)) && NamesOk(s)
  {
    ConsistentKept(s, e);
    IndexKept(s, e);
  }

  class Store {
    var databases: map<string, Database>
    var names: map<string, string>
    var ids: set<string>
    var tombstones: set<string>
    var referrers: map<string, set<Version>>
    var bundles: map<Version, seq<string>>
    var active: map<string, string>
    var used: set<string>

    ghost predicate Valid()
      reads this
    {
      Consistent(View()) && IndexExact(View())
    }

    constructor ()
      ensures Valid() && View() == Empty()
    {
      EmptyIsExact();
      databases, names, ids, tombstones, referrers := map[], map[], {}, {}, map[];
      bundles, active, used := map[], map[], {};
    }

    ghost function View(): State
      reads this
    {
      State(databases, names, ids, tombstones, referrers, bundles, active, used)
    }

    /** What a clean session read of the key is what is stored. */
    ghost predicate Saw(seen: State, dirty: bool, k: S.Key)
      reads this
    {
      !dirty ==> S.Same(seen, View(), k)
    }

    /** commitDatabaseMetadata with a newly generated id. */
    method CommitDatabaseMetadata(seen: State, dirty: bool, id: string, name: string, until: int)
      returns (result: CommitResult)
      requires Valid() && id !in used && Saw(seen, dirty, S.Db(id)) && Saw(seen, dirty, S.Name(name))
      modifies this`databases, this`names, this`ids, this`used
      ensures Valid() && View() == if result.Committed? then Step(old(View()), Commit(id, name, until)) else old(View())
      ensures result.Committed? ==> id in databases && names[name] == id && name !in old(names)
      ensures !dirty ==> (result.Committed? <==> name !in old(names))
    {
      hide Consistent, IndexExact;
      StoreKept(View(), Commit(id, name, until));
      if name in seen.names { return NameExists; }
      if id in seen.databases { return IdCollision; }
      if dirty { return CommitRetry; }
      databases := databases[id := Database(name, false, until)];
      names, ids, used := names[name := id], ids + {id}, used + {id};
      result := Committed;
    }

    method MarkDatabaseReady(seen: State, dirty: bool, id: string, name: string) returns (result: ReadyResult)
      requires Valid() && (id in databases ==> databases[id].name == name)
      requires Saw(seen, dirty, S.Db(id)) && Saw(seen, dirty, S.Name(name))
      modifies this`databases
      ensures Valid() && View() == if result.NowReady? then Step(old(View()), MarkReady(id)) else old(View())
      ensures result.NowReady? ==> id in databases && databases[id].ready && !old(databases[id]).ready
      ensures !dirty ==> (result.NowReady? <==> id in old(databases) && !old(databases)[id].ready)
    {
      hide Consistent, IndexExact;
      StoreKept(View(), MarkReady(id));
      if id !in seen.databases || seen.databases[id].ready { return NotProvisional; }
      if name !in seen.names || seen.names[name] != id { return AliasMismatch; }
      if dirty { return ReadyRetry; }
      databases := databases[id := databases[id].(ready := true)];
      result := NowReady;
    }

    /** The deletes both a rollback and a database delete stage. */
    method DropRecord(id: string, name: string, ownsName: bool)
      modifies this`databases, this`names, this`ids, this`referrers
      ensures View() == S.DropWrites(old(View()), id, name, ownsName)
    {
      databases, referrers, ids := databases - {id}, referrers - {id}, ids - {id};
      if ownsName { names := names - {name}; }
    }

    method RollbackProvisionalDatabaseMetadata(seen: State, dirty: bool, id: string, name: string)
      returns (rolledBack: bool)
      requires Valid() && (id in databases ==> databases[id].name == name)
      requires Saw(seen, dirty, S.Db(id)) && Saw(seen, dirty, S.Name(name))
      modifies this`databases, this`names, this`ids, this`referrers
      ensures Valid() && View() == if rolledBack then Step(old(View()), Rollback(id)) else old(View())
      ensures rolledBack ==> id !in databases && name !in names && id !in ids
      ensures !dirty ==> (rolledBack <==> id in old(databases) && !old(databases)[id].ready)
    {
      hide Consistent, IndexExact;
      StoreKept(View(), Rollback(id));
      if id !in seen.databases || seen.databases[id].ready || dirty { return false; }
      DropRecord(id, name, name in seen.names && seen.names[name] == id);
      rolledBack := true;
    }

    /** The sweep of provisional records: `record` is what the sweep read before. */
    method RollbackExpiredProvisionalDatabaseMetadata(record: Database, now: int, seen: State, dirty: bool, id: string)
      returns (rolledBack: bool)
      requires Valid() && (id in databases ==> databases[id].name == record.name)
      requires Saw(seen, dirty, S.Db(id)) && Saw(seen, dirty, S.Name(record.name))
      modifies this`databases, this`names, this`ids, this`referrers
      ensures Valid() && View() == if rolledBack then Step(old(View()), Rollback(id)) else old(View())
      ensures rolledBack ==> IsExpiredProvisional(record, now) && id !in databases
      ensures !dirty ==>
        (rolledBack <==> IsExpiredProvisional(record, now) && id in old(databases) && !old(databases)[id].ready)
    {
      if !IsExpiredProvisional(record, now) { return false; }
      rolledBack := RollbackProvisionalDatabaseMetadata(seen, dirty, id, record.name);
    }

    method DeleteDatabaseMetadata(seen: State, dirty: bool, id: string, name: string)
      returns (deleted: bool, blockers: set<Version>)
      requires Valid() && (id in databases ==> databases[id].name == name)
      requires Saw(seen, dirty, S.Db(id)) && Saw(seen, dirty, S.Name(name)) && Saw(seen, dirty, S.Referrers(id))
      modifies this`databases, this`names, this`ids, this`referrers, this`tombstones
      ensures Valid() && View() == if deleted then Step(old(View()), DeleteDatabase(id)) else old(View())
      ensures deleted ==> id !in databases && id in tombstones && name !in names
      ensures !dirty ==>
        blockers == (if id in old(databases) && old(databases)[id].ready then ReferrersOf(old(View()), id) else {})
      ensures !dirty ==> (deleted <==> id in old(databases) && old(databases)[id].ready && blockers == {})
      ensures !dirty && id in old(databases) && old(databases)[id].ready ==>
        (deleted <==> !BoundBySome(old(View()), id))
    {
      if id in databases && databases[id].ready { DeleteDecides(View(), id); }
      hide Consistent, IndexExact;
      StoreKept(View(), DeleteDatabase(id));
      if id !in seen.databases || !seen.databases[id].ready { return false, {}; }
      blockers := if id in seen.referrers then seen.referrers[id] else {};
      if blockers != {} || dirty { return false, blockers; }
      tombstones := tombstones + {id};
      DropRecord(id, name, name in seen.names && seen.names[name] == id);
      deleted := true;
    }

    /** assertBundleDependenciesPresent: every bound database still has its record. */
    method DependenciesPresent(seen: State, refs: seq<string>) returns (ok: bool)
      ensures ok <==> S.AllPresent(seen, refs)
    {
      for i := 0 to |refs|
        invariant forall j :: 0 <= j < i ==> refs[j] in seen.databases
      {
        if refs[i] !in seen.databases { return false; }
      }
      ok := true;
    }

    method StageReferrers(v: Version, refs: seq<string>)
      modifies this`referrers
      ensures referrers == AddReferrer(old(referrers), v, refs)
    {
      for i := 0 to |refs|
        invariant referrers == AddReferrer(old(referrers), v, refs[..i])
      {
        assert refs[..i + 1][..i] == refs[..i];
        referrers := referrers[refs[i] := (if refs[i] in referrers then referrers[refs[i]] else {}) + {v}];
      }
      assert refs[..|refs|] == refs;
    }

    /** The D1 half of a promote: the version becomes active only with every database it binds to. */
    method PromoteVersion(seen: State, dirty: bool, v: Version) returns (ok: bool)
      requires Valid() && Saw(seen, dirty, S.Bundle(v))
      requires forall id :: v in seen.bundles && id in seen.bundles[v] ==> Saw(seen, dirty, S.Db(id))
      modifies this`active, this`referrers
      ensures Valid() && View() == if ok then Step(old(View()), Promote(v)) else old(View())
      ensures ok ==> active == old(active)[v.0 := v.1] && ReferencesHold(View())
      ensures !dirty ==> (ok <==> v in bundles && S.AllPresent(old(View()), bundles[v]))
    {
      hide Consistent, IndexExact, ReferencesHold, NamesOk;
      StoreKept(View(), Promote(v));
      ConsistentMeans(Step(View(), Promote(v)));
      if v !in seen.bundles { return false; }
      var present := DependenciesPresent(seen, seen.bundles[v]);
      ghost var refs := seen.bundles[v];
      assert !dirty ==> forall id :: id in refs ==> Agree(seen.databases, databases, id) by {
        if !dirty {
          forall id | id in refs ensures Agree(seen.databases, databases, id) { assert Saw(seen, dirty, S.Db(id)); }
        }
      }
      if !present || dirty { return false; }
      StageReferrers(v, seen.bundles[v]);
      active := active[v.0 := v.1];
      ok := true;
    }
  }
}
