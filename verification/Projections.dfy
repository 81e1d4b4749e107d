/** The control plane's projections: what promote, bump and host reconcile keep in Redis beside the bundles. A
    transaction decides on what it observed and writes to what is stored; here it observes the store as it is,
    and ControlSessions shows that a session that commits does too. */
module Projections {
  import opened Prelude

  datatype Route = Route(host: string, slot: string, kind: string, value: string)

  datatype Consumer = Consumer(queue: string, config: string)

  datatype Meta = Meta(routes: seq<Route>, consumers: seq<Consumer>)

  /** The value of one slot of patterns:<host>. */
  datatype Projection = Projection(ns: string, worker: string, version: string, kind: string, value: string)

  datatype Record = Record(worker: string, version: string, config: string)

  type Slot = (string, string)      // host, slot
  type Worker = (string, string)    // namespace, worker
  type Queue = (string, string)     // namespace, queue

  datatype State = State(
    bundles: map<(Worker, string), Meta>,
    active: map<Worker, string>,
    patterns: map<Slot, Projection>,
    nsHosts: set<(string, string)>,        // namespace, host with a live pattern
    consumers: map<Queue, Record>,
    hosts: set<(string, string)>           // namespace, declared host
  )

  // ---- Routes ----

  function KeyOf(r: Route): Slot {
    (r.host, r.slot)
  }

  function RouteKeys(routes: seq<Route>): set<Slot> {
    set r | r in routes :: KeyOf(r)
  }

  function HostsOf(routes: seq<Route>): set<string> {
    set r | r in routes :: r.host
  }

  function Project(w: Worker, version: string, r: Route): Projection {
    Projection(w.0, w.1, version, r.kind, r.value)
  }

  /** stageVersionFlip's writes, in order. */
  function Install(patterns: map<Slot, Projection>, w: Worker, version: string, routes: seq<Route>)
    : map<Slot, Projection>
  {
    if routes == [] then patterns
    else Install(patterns, w, version, routes[..|routes| - 1])[KeyOf(Last(routes)) := Project(w, version, Last(routes))]
  }

  /** computeNsHostDeltas: the slots of `h` that will remain, and whether the namespace owns one. */
  predicate OwnsAfter(ns: string, h: string, patterns: map<Slot, Projection>, removed: set<Slot>, routes: seq<Route>) {
    || h in HostsOf(routes)
    || exists k :: k in patterns && k.0 == h && k !in removed && patterns[k].ns == ns
  }

  function NsHostsAfter(nsHosts: set<(string, string)>, patterns: map<Slot, Projection>, ns: string,
                        affected: set<string>, removed: set<Slot>, routes: seq<Route>): set<(string, string)>
  {
    var add := set h | h in affected && OwnsAfter(ns, h, patterns, removed, routes) :: (ns, h);
    var rem := set h | h in affected && !OwnsAfter(ns, h, patterns, removed, routes) :: (ns, h);
    (nsHosts + add) - rem
  }

  // ---- Queue consumers ----

  function Queues(consumers: seq<Consumer>): set<string> {
    set c | c in consumers :: c.queue
  }

  function InstallConsumers(records: map<Queue, Record>, w: Worker, version: string, consumers: seq<Consumer>)
    : map<Queue, Record>
  {
    if consumers == [] then records
    else
      var rest, c := InstallConsumers(records, w, version, consumers[..|consumers| - 1]), Last(consumers);
      rest[(w.0, c.queue) := Record(w.1, version, c.config)]
  }

  // ---- Promote ----

  function CurrentMeta(s: State, w: Worker): Meta {
    if w in s.active && (w, s.active[w]) in s.bundles then s.bundles[(w, s.active[w])] else Meta([], [])
  }

  /** assertDeclaredHosts. */
  predicate HostsDeclared(s: State, ns: string, routes: seq<Route>) {
    forall r :: r in routes ==> (ns, r.host) in s.hosts
  }

  /** readHostStateAndAssertRouteConflicts. */
  predicate RoutesFree(s: State, w: Worker, routes: seq<Route>) {
    && (forall r, k :: r in routes && k in s.patterns && k.0 == r.host ==> s.patterns[k].ns == w.0)
    && (forall r :: r in routes && KeyOf(r) in s.patterns ==> s.patterns[KeyOf(r)].worker == w.1)
  }

  /** assertQueueConsumerOwnership. */
  predicate QueuesFree(s: State, w: Worker, cs: seq<Consumer>) {
    forall c :: c in cs && (w.0, c.queue) in s.consumers ==> s.consumers[(w.0, c.queue)].worker == w.1
  }

  predicate PromoteAllowed(s: State, w: Worker, version: string) {
    && (w, version) in s.bundles
    && var meta := s.bundles[(w, version)];
    && HostsDeclared(s, w.0, meta.routes) && RoutesFree(s, w, meta.routes) && QueuesFree(s, w, meta.consumers)
  }

  /** The writes of a promote planned on the observed state `o`, applied to the stored state `s`. */
  function PromoteWrites(s: State, o: State, w: Worker, version: string): State
    requires (w, version) in o.bundles
  {
    var meta, was := o.bundles[(w, version)], CurrentMeta(o, w);
    var removed := RouteKeys(was.routes) - RouteKeys(meta.routes);
    var affected := HostsOf(was.routes) + HostsOf(meta.routes);
    var gone := set q | q in Queues(was.consumers) - Queues(meta.consumers) :: (w.0, q);
    s.(
      active := s.active[w := version],
      patterns := Install(s.patterns - removed, w, version, meta.routes),
      nsHosts := NsHostsAfter(s.nsHosts, o.patterns, w.0, affected, removed, meta.routes),
      consumers := InstallConsumers(s.consumers, w, version, meta.consumers) - gone)
  }

  function PromoteStep(s: State, w: Worker, version: string): State {
    if PromoteAllowed(s, w, version) then PromoteWrites(s, s, w, version) else s
  }

  // ---- Bump ----

  /** COPY the active bundle to a new version number and flip to it. */
  predicate BumpAllowed(s: State, w: Worker, version: string) {
    && w in s.active && (w, s.active[w]) in s.bundles && (w, version) !in s.bundles
    && HostsDeclared(s, w.0, CurrentMeta(s, w).routes)
  }

  function BumpWrites(s: State, o: State, w: Worker, version: string): State
    requires w in o.active && (w, o.active[w]) in o.bundles
  {
    var meta := CurrentMeta(o, w);
    s.(
      bundles :=
        if (w, o.active[w]) in s.bundles then s.bundles[(w, version) := s.bundles[(w, o.active[w])]] else s.bundles,
      active := s.active[w := version],
      patterns := Install(s.patterns, w, version, meta.routes),
      consumers := InstallConsumers(s.consumers, w, version, meta.consumers))
  }

  function BumpStep(s: State, w: Worker, version: string): State {
    if BumpAllowed(s, w, version) then BumpWrites(s, s, w, version) else s
  }

  // ---- Deploy, version delete, host reconcile ----

  predicate WellFormed(m: Meta) {
    && (forall i, j :: 0 <= i < j < |m.routes| ==> KeyOf(m.routes[i]) != KeyOf(m.routes[j]))
    && (forall i, j :: 0 <= i < j < |m.consumers| ==> m.consumers[i].queue != m.consumers[j].queue)
  }

  function DeployStep(s: State, w: Worker, version: string, meta: Meta): State {
    if (w, version) in s.bundles || !WellFormed(meta) then s else s.(bundles := s.bundles[(w, version) := meta])
  }

  function DeleteVersionStep(s: State, w: Worker, version: string): State {
    if w in s.active && s.active[w] == version then s else s.(bundles := s.bundles - {(w, version)})
  }

  /** A host with a live pattern of the namespace cannot be undeclared; the reverse index is asked first. */
  predicate ReconcileAllowed(s: State, ns: string, body: set<string>) {
    forall h, k :: (ns, h) in s.hosts && h !in body && (ns, h) in s.nsHosts && k in s.patterns && k.0 == h ==>
      s.patterns[k].ns != ns
  }

  function ReconcileStep(s: State, ns: string, body: set<string>): State {
    if !ReconcileAllowed(s, ns, body) then s
    else s.(hosts := (set p | p in s.hosts && (p.0 != ns || p.1 in body)) + (set h | h in body :: (ns, h)))
  }

  datatype Event =
    | Deploy(w: Worker, version: string, meta: Meta)
    | DeleteVersion(w: Worker, version: string)
    | Promote(w: Worker, version: string)
    | Bump(w: Worker, version: string)
    | Reconcile(ns: string, body: set<string>)

  function Step(s: State, e: Event): State {
    match e
    case Deploy(w, version, meta) => DeployStep(s, w, version, meta)
    case DeleteVersion(w, version) => DeleteVersionStep(s, w, version)
    case Promote(w, version) => PromoteStep(s, w, version)
    case Bump(w, version) => BumpStep(s, w, version)
    case Reconcile(ns, body) => ReconcileStep(s, ns, body)
  }

  function Run(s: State, es: seq<Event>): State
    decreases |es|
  {
    if es == [] then s else Run(Step(s, es[0]), es[1..])
  }
}
