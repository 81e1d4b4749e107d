/** The control plane's writers as Redis sessions: each watches keys, reads, decides and sends one EXEC, one command
    at a time, while other sessions do the same. Redis aborts the EXEC of a session one of whose watched keys
    changed since it was watched, and the writer starts over. */
module ControlSessions {
  import opened Prelude
  import P = Projections
  import H = HostIndexes

  /** The keys the writers watch and read; of nsHosts:<ns> they only ask for one member at a time. */
  datatype Key =
    | Routes(ns: string)
    | Hosts(ns: string)
    | Bundle(w: P.Worker, version: string)
    | Patterns(host: string)
    | Consumers(ns: string, queue: string)
    | NsHost(ns: string, host: string)
    | Declarations(host: string)

  /** What reads can see. */
  datatype Data = Data(p: P.State, declarations: set<(string, string)>)

  /** The key has the same value in both. */
  ghost predicate Same(a: Data, b: Data, k: Key) {
    match k
    case Routes(ns) => forall name :: Agree(a.p.active, b.p.active, (ns, name))
    case Hosts(ns) => forall h :: (ns, h) in a.p.hosts <==> (ns, h) in b.p.hosts
    case Bundle(w, v) => Agree(a.p.bundles, b.p.bundles, (w, v))
    case Patterns(h) => forall slot :: Agree(a.p.patterns, b.p.patterns, (h, slot))
    case Consumers(ns, q) => Agree(a.p.consumers, b.p.consumers, (ns, q))
    case NsHost(ns, h) => (ns, h) in a.p.nsHosts <==> (ns, h) in b.p.nsHosts
    case Declarations(h) => forall ns :: (h, ns) in a.declarations <==> (h, ns) in b.declarations
  }

  /** `o` with the value `d` has for the key. */
  function Copy(o: Data, d: Data, k: Key): Data {
    match k
    case Routes(ns) =>
      o.(p := o.p.(active := (map x | x in o.p.active && x.0 != ns :: o.p.active[x])
                             + (map x | x in d.p.active && x.0 == ns :: d.p.active[x])))
    case Hosts(ns) =>
      o.(p := o.p.(hosts := (set x | x in o.p.hosts && x.0 != ns) + (set x | x in d.p.hosts && x.0 == ns)))
    case Bundle(w, v) => o.(p := o.p.(bundles := CopyKey(o.p.bundles, d.p.bundles, (w, v))))
    case Patterns(h) =>
      o.(p := o.p.(patterns := (map x | x in o.p.patterns && x.0 != h :: o.p.patterns[x])
                               + (map x | x in d.p.patterns && x.0 == h :: d.p.patterns[x])))
    case Consumers(ns, q) => o.(p := o.p.(consumers := CopyKey(o.p.consumers, d.p.consumers, (ns, q))))
    case NsHost(ns, h) =>
      o.(p := o.p.(nsHosts := if (ns, h) in d.p.nsHosts then o.p.nsHosts + {(ns, h)} else o.p.nsHosts - {(ns, h)}))
    case Declarations(h) =>
      o.(declarations := (set x | x in o.declarations && x.0 != h) + (set x | x in d.declarations && x.0 == h))
  }

  // ---- Sessions ----

  datatype Session = Session(
    job: P.Event,
    phase: nat,
    watched: set<Key>,
    got: set<Key>,                  // keys whose replies are in `seen`
    seen: Data,
    dirty: bool                     // a watched key changed
  )

  datatype State = State(
    p: P.State,
    h: H.State,
    numbered: set<(P.Worker, string)>,     // versions handed out by INCR
    sessions: map<nat, Session>
  )

  datatype Event =
    | Begin(id: nat, job: P.Event)
    | Get(id: nat, key: Key)
    | Next(id: nat)
    | Exec(id: nat, touched: set<Key>)     // `touched`: keys rewritten with the value they had
    | Abandon(id: nat)
    | Rebuild(e: H.Event)

  datatype Command = WatchKeys(keys: set<Key>) | ReadKeys(keys: set<Key>) | Commit

  function DataOf(s: State): Data {
    Data(s.p, s.h.declarations)
  }

  function Nothing(): Data {
    Data(P.State(map[], map[], map[], {}, map[], {}), {})
  }

  function Fresh(job: P.Event): Session {
    Session(job, 0, {}, {}, Nothing(), false)
  }

  // ---- The writers' commands, in order ----

  function MetaOf(o: P.State, w: P.Worker, version: string): P.Meta {
    if (w, version) in o.bundles then o.bundles[(w, version)] else P.Meta([], [])
  }

  function PatternKeys(hosts: set<string>): set<Key> {
    set h | h in hosts :: Patterns(h)
  }

  function DeclarationKeys(hosts: set<string>): set<Key> {
    set h | h in hosts :: Declarations(h)
  }

  function NsHostKeys(ns: string, hosts: set<string>): set<Key> {
    set h | h in hosts :: NsHost(ns, h)
  }

  function ConsumerKeys(ns: string, queues: set<string>): set<Key> {
    set q | q in queues :: Consumers(ns, q)
  }

  function CurrentKeys(o: P.State, w: P.Worker): set<Key> {
    if w in o.active then {Bundle(w, o.active[w])} else {}
  }

  function Affected(o: P.State, w: P.Worker, version: string): set<string> {
    P.HostsOf(P.CurrentMeta(o, w).routes) + P.HostsOf(MetaOf(o, w, version).routes)
  }

  /** promoteWithRoutes. The current version's bundle is read without being watched. */
  function PromoteProgram(o: P.State, w: P.Worker, version: string, phase: nat): Command {
    if phase == 0 then WatchKeys({Routes(w.0), Hosts(w.0), Bundle(w, version)})
    else if phase == 1 then ReadKeys({Bundle(w, version), Routes(w.0)})
    else if phase == 2 then ReadKeys(CurrentKeys(o, w))
    else if phase == 3 then
      WatchKeys(ConsumerKeys(w.0, P.Queues(P.CurrentMeta(o, w).consumers) + P.Queues(MetaOf(o, w, version).consumers)))
    else if phase == 4 then ReadKeys(ConsumerKeys(w.0, P.Queues(MetaOf(o, w, version).consumers)))
    else if phase == 5 then WatchKeys(PatternKeys(Affected(o, w, version)))
    else if phase == 6 then ReadKeys({Hosts(w.0)})
    else if phase == 7 then ReadKeys(PatternKeys(Affected(o, w, version)))
    else Commit
  }

  /** bumpActiveAndPromote. */
  function BumpProgram(o: P.State, w: P.Worker, version: string, phase: nat): Command {
    if phase == 0 then WatchKeys({Routes(w.0), Hosts(w.0)})
    else if phase == 1 then ReadKeys({Routes(w.0)})
    else if phase == 2 then WatchKeys(CurrentKeys(o, w) + {Bundle(w, version)})
    else if phase == 3 then ReadKeys(CurrentKeys(o, w))
    else if phase == 4 then ReadKeys({Hosts(w.0)})
    else if phase == 5 then WatchKeys(PatternKeys(P.HostsOf(P.CurrentMeta(o, w).routes)))
    else if phase == 6 then ReadKeys(PatternKeys(P.HostsOf(P.CurrentMeta(o, w).routes)))
    else if phase == 7 then WatchKeys(ConsumerKeys(w.0, P.Queues(P.CurrentMeta(o, w).consumers)))
    else Commit
  }

  /** executeVersionDelete. */
  function DeleteProgram(w: P.Worker, version: string, phase: nat): Command {
    if phase == 0 then WatchKeys({Routes(w.0), Bundle(w, version)})
    else if phase == 1 then ReadKeys({Routes(w.0)})
    else if phase == 2 then ReadKeys({Bundle(w, version)})
    else Commit
  }

  function ToRemove(o: P.State, ns: string, body: set<string>): set<string> {
    H.HostsFor(o.hosts, ns) - body
  }

  /** reconcileHosts. The reverse index is read without being watched; its batches of reads may interleave, and a
      host's patterns are read only to see whose they are. */
  function ReconcileProgram(o: P.State, ns: string, body: set<string>, phase: nat): Command {
    var hosts := ToRemove(o, ns, body);
    if phase == 0 then WatchKeys({Hosts(ns)})
    else if phase == 1 then ReadKeys({Hosts(ns)})
    else if phase == 2 then WatchKeys(PatternKeys(hosts))
    else if phase == 3 then WatchKeys(DeclarationKeys(hosts))
    else if phase == 4 then ReadKeys(NsHostKeys(ns, hosts) + PatternKeys(hosts) + DeclarationKeys(hosts))
    else Commit
  }

  function Program(job: P.Event, o: P.State, phase: nat): Command {
    match job
    case Promote(w, version) => PromoteProgram(o, w, version, phase)
    case Bump(w, version) => BumpProgram(o, w, version, phase)
    case DeleteVersion(w, version) => DeleteProgram(w, version, phase)
    case Reconcile(ns, body) => ReconcileProgram(o, ns, body, phase)
    case Deploy(_, _, _) => Commit
  }

  // ---- What an EXEC writes ----

  /** The plan on what was observed, applied to what is stored. */
  function Apply(s: State, x: Session): (P.State, H.State) {
    var o := x.seen.p;
    match x.job
    case Promote(w, version) =>
      (if (w in o.active ==> (w, o.active[w]) in o.bundles) && P.PromoteAllowed(o, w, version)
       then P.PromoteWrites(s.p, o, w, version) else s.p, s.h)
    case Bump(w, version) => (if P.BumpAllowed(o, w, version) then P.BumpWrites(s.p, o, w, version) else s.p, s.h)
    case DeleteVersion(w, version) =>
      (if (w in o.active && o.active[w] == version) || (w, version) !in o.bundles then s.p
       else s.p.(bundles := s.p.bundles - {(w, version)}), s.h)
    case Deploy(w, version, meta) => (s.p.(bundles := s.p.bundles[(w, version) := meta]), s.h)
    case Reconcile(ns, body) =>
      if !P.ReconcileAllowed(o, ns, body) then (s.p, s.h)
      else
        var h := H.ReconcileWrites(s.h, o.hosts, x.seen.declarations, ns, body);
        (s.p.(hosts := h.hosts), h)
  }

  /** Redis marks every session one of whose watched keys changed, or was rewritten. */
  ghost function Notice(x: Session, before: Data, after: Data, touched: set<Key>): Session {
    x.(dirty := x.dirty || exists k :: k in x.watched && (k in touched || !Same(before, after, k)))
  }

  ghost function Install(s: State, p: P.State, h: H.State, touched: set<Key>): State {
    s.(p := p, h := h,
       sessions := map id | id in s.sessions :: Notice(s.sessions[id], DataOf(s), Data(p, h.declarations), touched))
  }

  // ---- Steps ----

  /** The version a job creates, fresh from INCR. */
  function Creates(job: P.Event): Option<(P.Worker, string)> {
    if job.Deploy? || job.Bump? then Some((job.w, job.version)) else None
  }

  predicate MayBegin(s: State, id: nat, job: P.Event) {
    && id !in s.sessions && (job.Deploy? ==> P.WellFormed(job.meta))
    && (Creates(job).Some? ==> Creates(job).value !in s.numbered)
  }

  function BeginStep(s: State, id: nat, job: P.Event): State {
    if !MayBegin(s, id, job) then s
    else s.(
      sessions := s.sessions[id := Fresh(job)],
      numbered := if Creates(job).Some? then s.numbered + {Creates(job).value} else s.numbered)
  }

  function CommandOf(x: Session): Command {
    Program(x.job, x.seen.p, x.phase)
  }

  function Fetched(x: Session, d: Data, k: Key): Session {
    if CommandOf(x).ReadKeys? && k in CommandOf(x).keys then x.(got := x.got + {k}, seen := Copy(x.seen, d, k)) else x
  }

  function Advanced(x: Session): Session {
    match CommandOf(x)
    case WatchKeys(keys) => x.(phase := x.phase + 1, watched := x.watched + keys, got := x.got - keys)
    case ReadKeys(keys) => if keys <= x.got then x.(phase := x.phase + 1) else x
    case Commit => x
  }

  ghost function ExecStep(s: State, id: nat, touched: set<Key>): State {
    if id !in s.sessions || !CommandOf(s.sessions[id]).Commit? then s
    else
      var x := s.sessions[id];
      if x.dirty then s.(sessions := s.sessions[id := Fresh(x.job)])
      else
        var (p, h) := Apply(s, x);
        Install(s.(sessions := s.sessions - {id}), p, h, touched)
  }

  ghost function RebuildStep(s: State, e: H.Event): State {
    if e.Reconcile? then s else Install(s, s.p, H.Step(s.h, e), {})
  }

  ghost function Step(s: State, e: Event): State {
    match e
    case Begin(id, job) => BeginStep(s, id, job)
    case Get(id, k) =>
      if id in s.sessions then s.(sessions := s.sessions[id := Fetched(s.sessions[id], DataOf(s), k)]) else s
    case Next(id) => if id in s.sessions then s.(sessions := s.sessions[id := Advanced(s.sessions[id])]) else s
    case Exec(id, touched) => ExecStep(s, id, touched)
    case Abandon(id) => s.(sessions := s.sessions - {id})
    case Rebuild(he) => RebuildStep(s, he)
  }

  ghost function Run(s: State, es: seq<Event>): State
    decreases |es|
  {
    if es == [] then s else Run(Step(s, es[0]), es[1..])
  }
}
