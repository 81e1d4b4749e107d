/** A D1 metadata session that commits has seen the store as it is, so every run of interleaved sessions is a run of
    whole transactions. */
module D1SessionProofs {
  import opened Prelude
  import M = D1Metadata
  import opened D1Sessions

  // ---- Reads ----

  lemma SameTrans(a: M.State, b: M.State, c: M.State, k: Key)
    requires Same(a, b, k) && Same(b, c, k)
    ensures Same(a, c, k)
  {
  }

  lemma CopySame(o: M.State, d: M.State, k: Key)
    ensures Same(Copy(o, d, k), d, k)
  {
  }

  lemma CopyOther(o: M.State, d: M.State, k: Key, j: Key)
    requires j != k && Same(o, d, j)
    ensures Same(Copy(o, d, k), d, j)
  {
  }

  // ---- What a session has done and seen ----

  predicate Done(x: Session, c: Command) {
    match c
    case WatchKeys(keys) => keys <= x.watched
    case ReadKeys(keys) => keys <= x.got
    case Commit => false
  }

  predicate Followed(x: Session) {
    forall q :: 0 <= q < x.phase ==> Done(x, Program(x.job, x.seen, q))
  }

  lemma ProgramStable(job: Job, o: M.State, d: M.State, k: Key, phase: nat, q: nat)
    requires Program(job, o, phase).ReadKeys? && k in Program(job, o, phase).keys && q <= phase
    ensures Program(job, Copy(o, d, k), q) == Program(job, o, q)
  {
  }

  lemma WatchesComeFirst(job: Job, o: M.State, phase: nat, q: nat)
    requires Program(job, o, phase).WatchKeys? && q < phase && Program(job, o, q).ReadKeys?
    ensures Program(job, o, phase).keys !! Program(job, o, q).keys
  {
  }

  /** While no watched key has changed, what was read of watched keys is what is stored. */
  ghost predicate Current(x: Session, d: M.State) {
    !x.dirty ==> forall k :: k in x.got && k in x.watched ==> Same(x.seen, d, k)
  }

  ghost predicate SessionOk(d: M.State, x: Session) {
    Followed(x) && Current(x, d)
  }

  lemma FetchedOk(x: Session, d: M.State, k: Key)
    requires SessionOk(d, x)
    ensures SessionOk(d, Fetched(x, d, k))
  {
    var y := Fetched(x, d, k);
    if y != x {
      forall q | 0 <= q < y.phase ensures Done(y, Program(y.job, y.seen, q)) {
        ProgramStable(x.job, x.seen, d, k, x.phase, q);
        assert Done(x, Program(x.job, x.seen, q));
      }
      if !y.dirty {
        forall j | j in y.got && j in y.watched ensures Same(y.seen, d, j) {
          if j == k { CopySame(x.seen, d, k); } else { CopyOther(x.seen, d, k, j); }
        }
      }
    }
  }

  lemma AdvancedOk(x: Session, d: M.State)
    requires SessionOk(d, x)
    ensures SessionOk(d, Advanced(x))
  {
    var y := Advanced(x);
    forall q | 0 <= q < y.phase ensures Done(y, Program(y.job, y.seen, q)) {
      if q < x.phase {
        assert Done(x, Program(x.job, x.seen, q));
        if CommandOf(x).WatchKeys? && Program(x.job, x.seen, q).ReadKeys? {
          WatchesComeFirst(x.job, x.seen, x.phase, q);
        }
      }
    }
  }

  lemma NoticedOk(x: Session, d: M.State, d': M.State, touched: set<Key>)
    requires SessionOk(d, x)
    ensures SessionOk(d', Notice(x, d, d', touched))
  {
    var y := Notice(x, d, d', touched);
    forall q | 0 <= q < y.phase ensures Done(y, Program(y.job, y.seen, q)) {
      assert Done(x, Program(x.job, x.seen, q));
    }
    if !y.dirty {
      forall k | k in y.got && k in y.watched ensures Same(y.seen, d', k) {
        assert Same(x.seen, d, k) && Same(d, d', k);
        SameTrans(x.seen, d, d', k);
      }
    }
  }

  /** What a session that has sent all its commands knows: every key that it watched and read. */
  lemma SawIfRead(d: M.State, x: Session, q: nat, r: nat, k: Key)
    requires SessionOk(d, x) && !x.dirty && q < x.phase && r < x.phase
    requires Program(x.job, x.seen, q).WatchKeys? && k in Program(x.job, x.seen, q).keys
    requires Program(x.job, x.seen, r).ReadKeys? && k in Program(x.job, x.seen, r).keys
    ensures Same(x.seen, d, k)
  {
    assert Done(x, Program(x.job, x.seen, q)) && Done(x, Program(x.job, x.seen, r));
  }

  // ---- Versions, ids and names ----

  predicate SessionIds(s: State, x: Session) {
    && (Creates(x.job).Some? ==> Creates(x.job).value in s.numbered && Creates(x.job).value !in s.m.bundles)
    && (x.job.CommitDatabase? ==> x.job.id in s.drawn && x.job.id !in s.m.used)
    && (Names(x.job).Some? ==> Names(x.job).value.0 in s.named && s.named[Names(x.job).value.0] == Names(x.job).value.1)
  }

  function Draws(job: Job): Option<string> {
    if job.CommitDatabase? then Some(job.id) else None
  }

  /** Ids and versions are handed out once, and an id keeps its name. */
  predicate Ids(s: State) {
    && s.m.bundles.Keys <= s.numbered && s.m.used <= s.drawn && s.named.Keys == s.m.used
    && (forall id :: id in s.m.databases ==> id in s.named && s.m.databases[id].name == s.named[id])
    && (forall a :: a in s.sessions ==> SessionIds(s, s.sessions[a]))
    && (forall a, b :: a in s.sessions && b in s.sessions && a != b && Creates(s.sessions[a].job).Some? ==>
          Creates(s.sessions[a].job) != Creates(s.sessions[b].job))
    && (forall a, b :: a in s.sessions && b in s.sessions && a != b && Draws(s.sessions[a].job).Some? ==>
          Draws(s.sessions[a].job) != Draws(s.sessions[b].job))
  }

  ghost predicate Inv(s: State) {
    Ids(s) && forall a :: a in s.sessions ==> SessionOk(s.m, s.sessions[a])
  }

  // ---- An EXEC that goes through is one transaction ----

  /** The four writers of one record. */
  lemma RecordRefines(s: State, x: Session)
    requires SessionOk(s.m, x) && SessionIds(s, x) && Ids(s) && !x.dirty && CommandOf(x).Commit?
    requires x.job.CommitDatabase? || x.job.ReadyDatabase? || x.job.RollbackDatabase? || x.job.DropDatabase?
    ensures Apply(s.m, x) == M.Step(s.m, EventOf(x.job))
  {
    var id, name := x.job.id, x.job.name;
    SawIfRead(s.m, x, 0, 1, Db(id));
    SawIfRead(s.m, x, 0, 1, Name(name));
    if x.job.DropDatabase? { SawIfRead(s.m, x, 0, 1, Referrers(id)); }
    if id in s.m.databases { assert s.m.databases[id].name == s.named[id]; }
  }

  lemma SawRefs(d: M.State, x: Session, q: nat, r: nat, refs: seq<string>)
    requires SessionOk(d, x) && !x.dirty && q < x.phase && r < x.phase
    requires Program(x.job, x.seen, q) == WatchKeys(DbKeys(refs)) && Program(x.job, x.seen, r) == ReadKeys(DbKeys(refs))
    ensures AllReady(x.seen, refs) <==> AllReady(d, refs)
    ensures AllPresent(x.seen, refs) <==> AllPresent(d, refs)
  {
    forall id | id in refs ensures Agree(x.seen.databases, d.databases, id) {
      assert Db(id) in DbKeys(refs);
      SawIfRead(d, x, q, r, Db(id));
      assert Same(x.seen, d, Db(id));
    }
  }

  lemma DeployRefines(s: State, x: Session)
    requires SessionOk(s.m, x) && SessionIds(s, x) && !x.dirty && CommandOf(x).Commit? && x.job.DeployVersion?
    ensures Apply(s.m, x) == M.Step(s.m, EventOf(x.job))
  {
    SawRefs(s.m, x, 0, 1, x.job.refs);
  }

  lemma RemoveRefines(s: State, x: Session)
    requires SessionOk(s.m, x) && !x.dirty && CommandOf(x).Commit? && x.job.RemoveVersion?
    ensures Apply(s.m, x) == M.Step(s.m, EventOf(x.job))
  {
    SawIfRead(s.m, x, 0, 1, Routes);
    SawIfRead(s.m, x, 0, 1, Bundle(x.job.v));
  }

  lemma PromoteRefines(s: State, x: Session)
    requires SessionOk(s.m, x) && !x.dirty && CommandOf(x).Commit? && x.job.PromoteVersion?
    ensures Apply(s.m, x) == M.Step(s.m, EventOf(x.job))
  {
    SawIfRead(s.m, x, 0, 1, Bundle(x.job.v));
    SawRefs(s.m, x, 2, 3, RefsOf(x.seen, x.job.v));
  }

  lemma BumpRefines(s: State, x: Session)
    requires SessionOk(s.m, x) && SessionIds(s, x) && !x.dirty && CommandOf(x).Commit? && x.job.BumpVersion?
    ensures Apply(s.m, x) == M.Step(s.m, EventOf(x.job))
  {
    var o, worker := x.seen, x.job.worker;
    SawIfRead(s.m, x, 0, 1, Routes);
    if worker in o.active { SawIfRead(s.m, x, 2, 3, Bundle((worker, o.active[worker]))); }
    SawRefs(s.m, x, 4, 5, CurrentRefs(o, worker));
  }

  /** A session whose EXEC goes through makes exactly the atomic transaction, on the store as it is then. */
  lemma CommitIsAtomic(s: State, id: nat)
    requires Inv(s) && id in s.sessions && CommandOf(s.sessions[id]).Commit? && !s.sessions[id].dirty
    ensures Apply(s.m, s.sessions[id]) == M.Step(s.m, EventOf(s.sessions[id].job))
  {
    var x := s.sessions[id];
    assert SessionOk(s.m, x) && SessionIds(s, x);
    if x.job.DeployVersion? { DeployRefines(s, x); }
    else if x.job.RemoveVersion? { RemoveRefines(s, x); }
    else if x.job.PromoteVersion? { PromoteRefines(s, x); }
    else if x.job.BumpVersion? { BumpRefines(s, x); }
    else { RecordRefines(s, x); }
  }

  // ---- Every step keeps the invariant ----

  lemma FreshOk(d: M.State, job: Job)
    ensures SessionOk(d, Fresh(job))
  {
  }

  lemma OneSession(s: State, id: nat, y: Session)
    requires Inv(s) && id in s.sessions && y.job == s.sessions[id].job && SessionOk(s.m, y)
    ensures Inv(s.(sessions := s.sessions[id := y]))
  {
    var t := s.(sessions := s.sessions[id := y]);
    forall a | a in t.sessions ensures SessionIds(t, t.sessions[a]) { assert SessionIds(s, s.sessions[a]); }
  }

  lemma BeginIds(s: State, id: nat, job: Job)
    requires Ids(s)
    ensures Ids(BeginStep(s, id, job))
  {
    var t := BeginStep(s, id, job);
    forall a | a in t.sessions ensures SessionIds(t, t.sessions[a]) {
      assert a in s.sessions ==> SessionIds(s, s.sessions[a]);
    }
  }

  lemma BeginKept(s: State, id: nat, job: Job)
    requires Inv(s)
    ensures Inv(BeginStep(s, id, job))
  {
    hide Ids, SessionOk;
    BeginIds(s, id, job);
    FreshOk(s.m, job);
  }

  /** What a transaction adds. */
  lemma StepAdds(m: M.State, job: Job)
    ensures var t := M.Step(m, EventOf(job));
      && t.bundles.Keys <= m.bundles.Keys + (if Creates(job).Some? then {Creates(job).value} else {})
      && t.used == m.used + (if job.CommitDatabase? && t != m then {job.id} else {})
      && (forall id :: id in t.databases ==>
            || (id in m.databases && t.databases[id].name == m.databases[id].name)
            || (job.CommitDatabase? && t != m && id == job.id && t.databases[id].name == job.name))
  {
  }

  lemma CommittedIds(s: State, id: nat, touched: set<Key>)
    requires Ids(s) && id in s.sessions && CommandOf(s.sessions[id]).Commit? && !s.sessions[id].dirty
    requires Apply(s.m, s.sessions[id]) == M.Step(s.m, EventOf(s.sessions[id].job))
    ensures Ids(ExecStep(s, id, touched))
  {
    hide Apply, Program, EventOf, M.Step;
    var job, t := s.sessions[id].job, ExecStep(s, id, touched);
    assert SessionIds(s, s.sessions[id]);
    StepAdds(s.m, job);
    forall a | a in t.sessions ensures SessionIds(t, t.sessions[a]) {
      assert SessionIds(s, s.sessions[a]) && t.sessions[a].job == s.sessions[a].job;
      if Creates(s.sessions[a].job).Some? { assert Creates(s.sessions[a].job) != Creates(job); }
      if Draws(s.sessions[a].job).Some? { assert Draws(s.sessions[a].job) != Draws(job); }
      if Names(s.sessions[a].job).Some? { assert Names(s.sessions[a].job).value.0 in s.m.used; }
    }
    forall x | x in t.m.databases ensures x in t.named && t.m.databases[x].name == t.named[x] {
      if x in s.m.databases { assert s.m.databases[x].name == s.named[x]; }
    }
  }

  lemma ExecKept(s: State, id: nat, touched: set<Key>)
    requires Inv(s) && id in s.sessions && CommandOf(s.sessions[id]).Commit? && !s.sessions[id].dirty
    ensures Inv(ExecStep(s, id, touched)) && ExecStep(s, id, touched).m == M.Step(s.m, EventOf(s.sessions[id].job))
  {
    CommitIsAtomic(s, id);
    CommittedIds(s, id, touched);
    var t := ExecStep(s, id, touched);
    forall a | a in t.sessions ensures SessionOk(t.m, t.sessions[a]) { NoticedOk(s.sessions[a], s.m, t.m, touched); }
  }

  lemma AbandonKept(s: State, id: nat)
    requires Inv(s)
    ensures Inv(Step(s, Abandon(id)))
  {
    var t := Step(s, Abandon(id));
    forall a | a in t.sessions ensures SessionIds(t, t.sessions[a]) { assert SessionIds(s, s.sessions[a]); }
  }

  lemma InvKept(s: State, e: Event)
    requires Inv(s)
    ensures Inv(Step(s, e))
  {
    match e
    case Begin(id, job) => BeginKept(s, id, job);
    case Get(id, k) =>
      if id in s.sessions {
        FetchedOk(s.sessions[id], s.m, k);
        OneSession(s, id, Fetched(s.sessions[id], s.m, k));
      }
    case Next(id) =>
      if id in s.sessions {
        AdvancedOk(s.sessions[id], s.m);
        OneSession(s, id, Advanced(s.sessions[id]));
      }
    case Exec(id, touched) =>
      if id in s.sessions && CommandOf(s.sessions[id]).Commit? {
        if s.sessions[id].dirty {
          FreshOk(s.m, s.sessions[id].job);
          OneSession(s, id, Fresh(s.sessions[id].job));
        } else {
          ExecKept(s, id, touched);
        }
      }
    case Abandon(id) => AbandonKept(s, id);
  }

  // ---- Theorems ----

  function Carries(s: State, e: Event): Option<M.Event> {
    if e.Exec? && e.id in s.sessions && CommandOf(s.sessions[e.id]).Commit? && !s.sessions[e.id].dirty
    then Some(EventOf(s.sessions[e.id].job)) else None
  }

  lemma StepRefines(s: State, e: Event)
    requires Inv(s)
    ensures Step(s, e).m == if Carries(s, e).Some? then M.Step(s.m, Carries(s, e).value) else s.m
  {
    if Carries(s, e).Some? { ExecKept(s, e.id, e.touched); }
  }

  /** The transactions of a run, in commit order. */
  ghost function Transactions(s: State, es: seq<Event>): seq<M.Event>
    decreases |es|
  {
    if es == [] then []
    else (if Carries(s, es[0]).Some? then [Carries(s, es[0]).value] else []) + Transactions(Step(s, es[0]), es[1..])
  }

  /** Serializability: whatever the sessions interleave, the metadata is what the transactions that committed make of
      it, one after another. */
  lemma {:induction false} SessionsAreAtomic(s: State, es: seq<Event>)
    requires Inv(s)
    ensures Inv(Run(s, es)) && Run(s, es).m == M.Run(s.m, Transactions(s, es))
    decreases |es|
  {
    if es != [] {
      InvKept(s, es[0]);
      StepRefines(s, es[0]);
      SessionsAreAtomic(Step(s, es[0]), es[1..]);
      var rest := Transactions(Step(s, es[0]), es[1..]);
      if Carries(s, es[0]).Some? {
        assert Transactions(s, es)[1..] == rest;
      } else {
        assert Transactions(s, es) == rest;
      }
    }
  }

  function Start(): State {
    State(M.Empty(), map[], {}, {}, map[])
  }

  lemma {:induction false} TransactionsAreIndexed(s: State, es: seq<Event>)
    ensures M.Indexed(Transactions(s, es))
    decreases |es|
  {
    if es != [] { TransactionsAreIndexed(Step(s, es[0]), es[1..]); }
  }

  lemma Reached(es: seq<Event>)
    ensures var s := Run(Start(), es); Inv(s) && M.Consistent(s.m) && M.IndexExact(s.m)
  {
    hide Run, Transactions, M.Run, M.Indexed, M.Consistent, M.IndexExact;
    M.EmptyIsExact();
    SessionsAreAtomic(Start(), es);
    TransactionsAreIndexed(Start(), es);
    M.IndexAlong(M.Empty(), Transactions(Start(), es));
  }

  /** Over every interleaving of the commands of commits, readies, rollbacks, deletes, deploys, promotes, bumps and
      version deletes: names and databases are one to one, no retained version, active or not, is bound to a database
      that is gone or not ready, and each database lists exactly the retained versions that bind to it. */
  lemma MetadataStaysConsistent(es: seq<Event>)
    ensures var m := Run(Start(), es).m; M.UniqueNames(m) && M.ReferencesHold(m) && M.RetainedHold(m)
  {
    Reached(es);
    M.ConsistentMeans(Run(Start(), es).m);
    M.ExactMeans(Run(Start(), es).m);
  }

  predicate AtExec(s: State, a: nat) {
    a in s.sessions && CommandOf(s.sessions[a]).Commit? && !s.sessions[a].dirty
  }

  /** Over every interleaving, a delete of a ready database that Redis does not abort changes nothing exactly when a
      retained version binds to the database then; otherwise record and name are gone. */
  lemma DeletedExactlyWhenUnbound(es: seq<Event>, a: nat, touched: set<Key>)
    requires var s := Run(Start(), es);
      && AtExec(s, a) && s.sessions[a].job.DropDatabase?
      && s.sessions[a].job.id in s.m.databases && s.m.databases[s.sessions[a].job.id].ready
    ensures var s := Run(Start(), es);
      M.DeletesWhenUnbound(s.m, Step(s, Exec(a, touched)).m, s.sessions[a].job.id)
  {
    hide Inv, Apply, Program, M.Consistent, M.IndexExact, M.Step;
    Reached(es);
    var s := Run(Start(), es);
    ExecKept(s, a, touched);
    M.DeleteDecides(s.m, s.sessions[a].job.id);
  }

  /** The race on a database between its delete and a promote that binds it, both about to send EXEC: if the delete
      goes first and deletes, the promote changes nothing. */
  lemma DeleteBeforePromote(s: State, a: nat, b: nat, touched: set<Key>, more: set<Key>)
    requires Inv(s) && AtExec(s, a) && AtExec(s, b) && a != b
    requires s.sessions[a].job.DropDatabase? && s.sessions[b].job.PromoteVersion?
    requires var v := s.sessions[b].job.v; v in s.m.bundles && s.sessions[a].job.id in s.m.bundles[v]
    ensures var t := Step(s, Exec(a, touched)); t.m != s.m ==> Step(t, Exec(b, more)).m == t.m
  {
    hide Inv, Apply, Program;
    var t := Step(s, Exec(a, touched));
    ExecKept(s, a, touched);
    StepRefines(t, Exec(b, more));
    if t.m != s.m { assert s.sessions[a].job.id !in t.m.databases && t.m.bundles == s.m.bundles; }
  }

  /** And if the promote goes first and activates, the delete changes nothing. */
  lemma PromoteBeforeDelete(s: State, a: nat, b: nat, touched: set<Key>, more: set<Key>)
    requires Inv(s) && AtExec(s, a) && AtExec(s, b) && a != b
    requires s.sessions[a].job.DropDatabase? && s.sessions[b].job.PromoteVersion?
    requires var v := s.sessions[b].job.v; v in s.m.bundles && s.sessions[a].job.id in s.m.bundles[v]
    ensures var t := Step(s, Exec(b, touched)); t.m != s.m ==> Step(t, Exec(a, more)).m == t.m
  {
    hide Inv, Apply, Program;
    var t, v, db := Step(s, Exec(b, touched)), s.sessions[b].job.v, s.sessions[a].job.id;
    ExecKept(s, b, touched);
    StepRefines(t, Exec(a, more));
    if t.m != s.m {
      M.AddReferrerAdds(s.m, v, s.m.bundles[v], db);
      assert v in M.ReferrersOf(t.m, db);
    }
  }
}
