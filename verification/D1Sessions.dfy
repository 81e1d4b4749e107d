/** The D1 metadata writers, and the deploys, promotes, bumps and version deletes that bind databases, as Redis
    sessions: watched reads, then one EXEC that Redis aborts when a watched key changed. One namespace. */
module D1Sessions {
  import opened Prelude
  import M = D1Metadata

  datatype Key =
    | Db(id: string)
    | Name(name: string)
    | Referrers(id: string)
    | Tombstone(id: string)
    | Bundle(v: M.Version)
    | Routes

  /** The key has the same value in both. */
  ghost predicate Same(a: M.State, b: M.State, k: Key) {
    match k
    case Db(id) => Agree(a.databases, b.databases, id)
    case Name(n) => Agree(a.names, b.names, n)
    case Referrers(id) => M.ReferrersOf(a, id) == M.ReferrersOf(b, id)
    case Tombstone(id) => id in a.tombstones <==> id in b.tombstones
    case Bundle(v) => Agree(a.bundles, b.bundles, v)
    case Routes => a.active == b.active
  }

  /** `o` with the value `d` has for the key. */
  function Copy(o: M.State, d: M.State, k: Key): M.State {
    match k
    case Db(id) => o.(databases := CopyKey(o.databases, d.databases, id))
    case Name(n) => o.(names := CopyKey(o.names, d.names, n))
    case Referrers(id) => o.(referrers := CopyKey(o.referrers, d.referrers, id))
    case Tombstone(id) => o.(tombstones := if id in d.tombstones then o.tombstones + {id} else o.tombstones - {id})
    case Bundle(v) => o.(bundles := CopyKey(o.bundles, d.bundles, v))
    case Routes => o.(active := d.active)
  }

  /** A job names the database by the record its caller read before, which may be gone by now. */
  datatype Job =
    | CommitDatabase(id: string, name: string, until: int)
    | ReadyDatabase(id: string, name: string)
    | RollbackDatabase(id: string, name: string)
    | DropDatabase(id: string, name: string)
    | DeployVersion(v: M.Version, refs: seq<string>)
    | RemoveVersion(v: M.Version)
    | PromoteVersion(v: M.Version)
    | BumpVersion(worker: string, version: string)

  datatype Session = Session(job: Job, phase: nat, watched: set<Key>, got: set<Key>, seen: M.State, dirty: bool)

  datatype State = State(
    m: M.State,
    named: map<string, string>,          // the name of every id that was ever committed
    drawn: set<string>,                  // database ids generated so far
    numbered: set<M.Version>,            // versions handed out by INCR
    sessions: map<nat, Session>
  )

  datatype Event =
    | Begin(id: nat, job: Job)
    | Get(id: nat, key: Key)
    | Next(id: nat)
    | Exec(id: nat, touched: set<Key>)
    | Abandon(id: nat)

  datatype Command = WatchKeys(keys: set<Key>) | ReadKeys(keys: set<Key>) | Commit

  function Fresh(job: Job): Session {
    Session(job, 0, {}, {}, M.Empty(), false)
  }

  // ---- The writers' commands, in order ----

  function DbKeys(refs: seq<string>): set<Key> {
    set id | id in refs :: Db(id)
  }

  function RefsOf(o: M.State, v: M.Version): seq<string> {
    if v in o.bundles then o.bundles[v] else []
  }

  function CurrentOf(o: M.State, worker: string): Option<M.Version> {
    if worker in o.active then Some((worker, o.active[worker])) else None
  }

  function CurrentKeys(o: M.State, worker: string): set<Key> {
    if worker in o.active then {Bundle((worker, o.active[worker]))} else {}
  }

  function CurrentRefs(o: M.State, worker: string): seq<string> {
    if worker in o.active then RefsOf(o, (worker, o.active[worker])) else []
  }

  function BumpProgram(o: M.State, worker: string, version: string, phase: nat): Command {
    if phase == 0 then WatchKeys({Routes})
    else if phase == 1 then ReadKeys({Routes})
    else if phase == 2 then WatchKeys(CurrentKeys(o, worker) + {Bundle((worker, version))})
    else if phase == 3 then ReadKeys(CurrentKeys(o, worker))
    else if phase == 4 then WatchKeys(DbKeys(CurrentRefs(o, worker)))
    else if phase == 5 then ReadKeys(DbKeys(CurrentRefs(o, worker)))
    else Commit
  }

  function PromoteProgram(o: M.State, v: M.Version, phase: nat): Command {
    if phase == 0 then WatchKeys({Routes, Bundle(v)})
    else if phase == 1 then ReadKeys({Bundle(v)})
    else if phase == 2 then WatchKeys(DbKeys(RefsOf(o, v)))
    else if phase == 3 then ReadKeys(DbKeys(RefsOf(o, v)))
    else Commit
  }

  /** Watch these, read these, commit. */
  function OneRead(watched: set<Key>, read: set<Key>, phase: nat): Command {
    if phase == 0 then WatchKeys(watched) else if phase == 1 then ReadKeys(read) else Commit
  }

  function Program(job: Job, o: M.State, phase: nat): Command {
    match job
    case CommitDatabase(id, name, _) => OneRead({Db(id), Name(name)}, {Db(id), Name(name)}, phase)
    case ReadyDatabase(id, name) => OneRead({Db(id), Name(name)}, {Db(id), Name(name)}, phase)
    case RollbackDatabase(id, name) => OneRead({Db(id), Name(name), Referrers(id)}, {Db(id), Name(name)}, phase)
    case DropDatabase(id, name) =>
      OneRead({Db(id), Name(name), Referrers(id), Tombstone(id)}, {Db(id), Name(name), Referrers(id)}, phase)
    case DeployVersion(_, refs) => OneRead(DbKeys(refs), DbKeys(refs), phase)
    case RemoveVersion(v) => OneRead({Routes, Bundle(v)}, {Routes, Bundle(v)}, phase)
    case PromoteVersion(v) => PromoteProgram(o, v, phase)
    case BumpVersion(worker, version) => BumpProgram(o, worker, version, phase)
  }

  // ---- What an EXEC writes ----

  function DropWrites(m: M.State, id: string, name: string, owns: bool): M.State {
    m.(databases := m.databases - {id}, referrers := m.referrers - {id}, ids := m.ids - {id},
       names := if owns then m.names - {name} else m.names)
  }

  predicate OwnsName(o: M.State, id: string, name: string) {
    name in o.names && o.names[name] == id
  }

  predicate AllReady(o: M.State, refs: seq<string>) {
    forall id :: id in refs ==> id in o.databases && o.databases[id].ready
  }

  predicate AllPresent(o: M.State, refs: seq<string>) {
    forall id :: id in refs ==> id in o.databases
  }

  /** The plan on what was observed, applied to what is stored. */
  function Apply(m: M.State, x: Session): M.State {
    var o := x.seen;
    match x.job
    case CommitDatabase(id, name, until) =>
      if name in o.names || id in o.databases then m
      else m.(databases := m.databases[id := M.Database(name, false, until)], names := m.names[name := id],
              ids := m.ids + {id}, used := m.used + {id})
    case ReadyDatabase(id, name) =>
      if id !in o.databases || o.databases[id].ready || !OwnsName(o, id, name) || id !in m.databases then m
      else m.(databases := m.databases[id := m.databases[id].(ready := true)])
    case RollbackDatabase(id, name) =>
      if id !in o.databases || o.databases[id].ready then m else DropWrites(m, id, name, OwnsName(o, id, name))
    case DropDatabase(id, name) =>
      if id !in o.databases || !o.databases[id].ready || M.ReferrersOf(o, id) != {} then m
      else DropWrites(m, id, name, OwnsName(o, id, name)).(tombstones := m.tombstones + {id})
    case DeployVersion(v, refs) =>
      if !AllReady(o, refs) then m
      else m.(bundles := m.bundles[v := refs], referrers := M.AddReferrer(m.referrers, v, refs))
    case RemoveVersion(v) =>
      if v !in o.bundles || CurrentOf(o, v.0) == Some(v) then m
      else m.(bundles := m.bundles - {v}, referrers := M.RemoveReferrer(m, v, o.bundles[v]))
    case PromoteVersion(v) =>
      if v !in o.bundles || !AllPresent(o, o.bundles[v]) then m
      else m.(active := m.active[v.0 := v.1], referrers := M.AddReferrer(m.referrers, v, o.bundles[v]))
    case BumpVersion(worker, version) =>
      if worker !in o.active || (worker, o.active[worker]) !in o.bundles then m
      else if !AllPresent(o, CurrentRefs(o, worker)) then m
      else m.(bundles := m.bundles[(worker, version) := CurrentRefs(o, worker)], active := m.active[worker := version],
              referrers := M.AddReferrer(m.referrers, (worker, version), CurrentRefs(o, worker)))
  }

  // ---- Steps ----

  ghost function Notice(x: Session, before: M.State, after: M.State, touched: set<Key>): Session {
    x.(dirty := x.dirty || exists k :: k in x.watched && (k in touched || !Same(before, after, k)))
  }

  ghost function Install(s: State, m: M.State, touched: set<Key>): State {
    s.(m := m, sessions := map id | id in s.sessions :: Notice(s.sessions[id], s.m, m, touched))
  }

  function Creates(job: Job): Option<M.Version> {
    match job
    case DeployVersion(v, _) => Some(v)
    case BumpVersion(worker, version) => Some((worker, version))
    case _ => None
  }

  /** The database a job is about, by a record read before. */
  function Names(job: Job): Option<(string, string)> {
    if job.ReadyDatabase? || job.RollbackDatabase? || job.DropDatabase? then Some((job.id, job.name)) else None
  }

  predicate MayBegin(s: State, id: nat, job: Job) {
    && id !in s.sessions
    && (Creates(job).Some? ==> Creates(job).value !in s.numbered)
    && (job.CommitDatabase? ==> job.id !in s.drawn)
    && (Names(job).Some? ==> Names(job).value.0 in s.named && s.named[Names(job).value.0] == Names(job).value.1)
  }

  function BeginStep(s: State, id: nat, job: Job): State {
    if !MayBegin(s, id, job) then s
    else s.(
      sessions := s.sessions[id := Fresh(job)],
      numbered := if Creates(job).Some? then s.numbered + {Creates(job).value} else s.numbered,
      drawn := if job.CommitDatabase? then s.drawn + {job.id} else s.drawn)
  }

  function CommandOf(x: Session): Command {
    Program(x.job, x.seen, x.phase)
  }

  function Fetched(x: Session, d: M.State, k: Key): Session {
    if CommandOf(x).ReadKeys? && k in CommandOf(x).keys then x.(got := x.got + {k}, seen := Copy(x.seen, d, k)) else x
  }

  function Advanced(x: Session): Session {
    match CommandOf(x)
    case WatchKeys(keys) => x.(phase := x.phase + 1, watched := x.watched + keys, got := x.got - keys)
    case ReadKeys(keys) => if keys <= x.got then x.(phase := x.phase + 1) else x
    case Commit => x
  }

  ghost function ExecStep(s: State, id: nat, touched: set<Key>): State {
    if id !in s.sessions || !CommandOf(s.sessions[id]).Commit? then s
    else
      var x := s.sessions[id];
      if x.dirty then s.(sessions := s.sessions[id := Fresh(x.job)])
      else
        var m := Apply(s.m, x);
        Install(s.(sessions := s.sessions - {id},
                   named := if x.job.CommitDatabase? && m != s.m then s.named[x.job.id := x.job.name] else s.named),
                m, touched)
  }

  ghost function Step(s: State, e: Event): State {
    match e
    case Begin(id, job) => BeginStep(s, id, job)
    case Get(id, k) => if id in s.sessions then s.(sessions := s.sessions[id := Fetched(s.sessions[id], s.m, k)]) else s
    case Next(id) => if id in s.sessions then s.(sessions := s.sessions[id := Advanced(s.sessions[id])]) else s
    case Exec(id, touched) => ExecStep(s, id, touched)
    case Abandon(id) => s.(sessions := s.sessions - {id})
  }

  ghost function Run(s: State, es: seq<Event>): State
    decreases |es|
  {
    if es == [] then s else Run(Step(s, es[0]), es[1..])
  }

  /** The transaction of D1Metadata that a job is. */
  function EventOf(job: Job): M.Event {
    match job
    case CommitDatabase(id, name, until) => M.Commit(id, name, until)
    case ReadyDatabase(id, _) => M.MarkReady(id)
    case RollbackDatabase(id, _) => M.Rollback(id)
    case DropDatabase(id, _) => M.DeleteDatabase(id)
    case DeployVersion(v, refs) => M.Deploy(v, refs, true)
    case RemoveVersion(v) => M.DeleteVersion(v)
    case PromoteVersion(v) => M.Promote(v)
    case BumpVersion(worker, version) => M.Bump(worker, version)
  }
}
