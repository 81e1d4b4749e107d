/** The gateway's WebSocket lifecycle manager: sessions grouped by worker, and a scheduler that rereads a
    group's session policy after an event, one loop at a time, with a retry timer for transport failures.
    Every step advances a clock, so "a read begun after the request" is a comparison of instants. */
module WebSocketLifecycle {
  import opened Prelude

  datatype Disposition = Restart | Failed

  datatype Signal = Signal(session: nat, disposition: Disposition)

  /** What Redis says of the worker. */
  datatype Snapshot = Inactive | Active(restart: bool, restartSequence: nat)

  /** A read under way: the sessions that existed when it began, in the order the group lists them. */
  datatype Reading = Reading(sessions: seq<nat>, began: nat)

  datatype Loop =
    | Idle
    | Running(unread: set<nat>, reading: map<nat, Reading>, deferred: set<nat>)
    | Exiting                                   // the loop has returned, its finally has not run

  /** Groups are objects: a key may get a new group after its old one emptied. */
  datatype Registry = Registry(
    groups: map<string, nat>,
    keys: map<nat, string>,                     // every group ever made
    members: map<nat, map<nat, nat>>,           // group to its sessions and their restart sequence
    registered: set<nat>,                       // session ids ever used
    next: nat,
    signals: seq<Signal>
  )

  datatype State = State(
    clock: nat,
    reg: Registry,
    pending: set<nat>,
    retry: set<nat>,
    loop: Loop,
    timer: bool,
    connected: bool,
    owed: map<nat, nat>                         // group to the instant of its last unanswered request
  )

  datatype Event =
    | Register(key: string, session: nat, restartSequence: nat)
    | Unregister(key: string, session: nat)
    | PolicyEvent(key: string, restartSequence: nat)
    | DeleteEvent(key: string)
    | Connect
    | Disconnect
    | TimerFires
    | BeginRead(g: nat, order: seq<nat>)
    | ReadAnswers(g: nat, snapshot: Snapshot)
    | ReadUnusable(g: nat)
    | ReadFails(g: nat)
    | BatchEnds
    | LoopThrows
    | Finally

  // ---- Sessions and groups ----

  function Sessions(r: Registry, g: nat): map<nat, nat> {
    if g in r.members then r.members[g] else map[]
  }

  predicate Live(r: Registry, g: nat) {
    g in r.keys && r.keys[g] in r.groups && r.groups[r.keys[g]] == g
  }

  /** The key's group, made if need be. */
  function Ensure(r: Registry, key: string): Registry {
    if key in r.groups then r
    else r.(groups := r.groups[key := r.next], keys := r.keys[r.next := key],
            members := r.members[r.next := map[]], next := r.next + 1)
  }

  function RegisterIn(r: Registry, key: string, session: nat, seqNo: nat): Registry {
    if session in r.registered then r
    else
      var m := Ensure(r, key);
      var g := m.groups[key];
      m.(members := m.members[g := Sessions(m, g)[session := seqNo]], registered := m.registered + {session})
  }

  /** Take a session out of a group, and an emptied group out of the map. */
  function Take(r: Registry, g: nat, session: nat): Registry {
    var left := Sessions(r, g) - {session};
    r.(members := r.members[g := left],
       groups := if left == map[] && Live(r, g) then r.groups - {r.keys[g]} else r.groups)
  }

  function UnregisterIn(r: Registry, key: string, session: nat): Registry {
    if key !in r.groups then r else Take(r, r.groups[key], session)
  }

  function Notify(r: Registry, g: nat, session: nat, d: Disposition): Registry {
    if session !in Sessions(r, g) then r
    else Take(r, g, session).(signals := r.signals + [Signal(session, d)])
  }

  /** What one session is told after a read: nothing, a signal, or a newer sequence. */
  function Judge(snapshot: Snapshot, own: nat): Option<Disposition> {
    match snapshot
    case Inactive => Some(Restart)
    case Active(restart, n) => if n < own then Some(Failed) else if n > own && restart then Some(Restart) else None
  }

  function Settle(r: Registry, g: nat, session: nat, snapshot: Snapshot): Registry {
    if session !in Sessions(r, g) then r
    else
      match Judge(snapshot, Sessions(r, g)[session])
      case Some(d) => Notify(r, g, session, d)
      case None =>
        var own := Sessions(r, g)[session];
        var next := if snapshot.restartSequence > own then snapshot.restartSequence else own;
        r.(members := r.members[g := Sessions(r, g)[session := next]])
  }

  /** One pass over the sessions a read was bound to. */
  function SettleAll(r: Registry, g: nat, sessions: seq<nat>, snapshot: Snapshot): Registry {
    if sessions == [] then r
    else Settle(SettleAll(r, g, sessions[..|sessions| - 1], snapshot), g, Last(sessions), snapshot)
  }

  function FailAll(r: Registry, g: nat, sessions: seq<nat>): Registry {
    if sessions == [] then r
    else Notify(FailAll(r, g, sessions[..|sessions| - 1]), g, Last(sessions), Failed)
  }

  // ---- The scheduler ----

  function CancelRetry(s: State): State {
    s.(timer := false, retry := {})
  }

  function StartBatch(s: State): State {
    s.(loop := Running(s.pending, map[], {}), pending := {}, retry := s.retry - s.pending)
  }

  /** The live ones of the requested groups become pending. */
  function Request(s: State, requested: set<nat>): State {
    var live := set g | g in requested && Live(s.reg, g);
    s.(pending := s.pending + live,
       owed := map g | g in s.owed.Keys + live :: if g in live then s.clock else s.owed[g])
  }

  /** Start the loop unless it runs or has nothing to do. */
  function Kick(s: State): State {
    if s.pending == {} then
      if s.loop.Idle? && s.retry == {} then CancelRetry(s) else s
    else if s.loop.Idle? then StartBatch(s) else s
  }

  /** scheduleReconcile of the given groups. */
  function Schedule(s: State, requested: set<nat>): State {
    Kick(Request(s, requested))
  }

  function DeferRetry(s: State): State {
    if s.timer || !s.connected || s.retry == {} then s else s.(timer := true)
  }

  function FinallyStep(s: State): State {
    if !s.loop.Exiting? then s
    else
      var t := s.(loop := Idle);
      if t.pending != {} then Schedule(t, {})
      else if t.retry != {} then DeferRetry(t)
      else CancelRetry(t)
  }

  function TimerStep(s: State): State {
    if !s.timer then s
    else
      var live := set g | g in s.retry && Live(s.reg, g);
      Schedule(s.(timer := false, pending := s.pending + live, retry := {}), {})
  }

  function BatchStep(s: State): State {
    if !s.loop.Running? || s.loop.unread != {} || s.loop.reading != map[] then s
    else
      var t := s.(retry := s.retry + s.loop.deferred);
      if s.pending != {} then StartBatch(t) else t.(loop := Exiting)
  }

  /** The batch throws before any of its reads: all of it is put up for retry. */
  function ThrowStep(s: State): State {
    if !s.loop.Running? || s.loop.reading != map[] || s.loop.deferred != {} then s
    else s.(retry := s.retry + s.loop.unread, loop := Exiting)
  }

  function BeginReadStep(s: State, g: nat, order: seq<nat>): State {
    if !s.loop.Running? || g !in s.loop.unread || (set x | x in order) != Sessions(s.reg, g).Keys then s
    else s.(loop := s.loop.(unread := s.loop.unread - {g}, reading := s.loop.reading[g := Reading(order, s.clock)]))
  }

  /** A read that came back discharges every request made before it began. */
  function EndRead(s: State, g: nat): State
    requires s.loop.Running? && g in s.loop.reading
  {
    s.(loop := s.loop.(reading := s.loop.reading - {g}),
       owed := if g in s.owed && s.owed[g] < s.loop.reading[g].began then s.owed - {g} else s.owed)
  }

  predicate InRead(s: State, g: nat) {
    s.loop.Running? && g in s.loop.reading
  }

  function AnswerStep(s: State, g: nat, snapshot: Snapshot): State {
    if !InRead(s, g) then s
    else EndRead(s, g).(reg := SettleAll(s.reg, g, s.loop.reading[g].sessions, snapshot))
  }

  function UnusableStep(s: State, g: nat): State {
    if !InRead(s, g) then s
    else EndRead(s, g).(reg := FailAll(s.reg, g, s.loop.reading[g].sessions))
  }

  function ReadFailsStep(s: State, g: nat): State {
    if !InRead(s, g) then s
    else s.(loop := s.loop.(reading := s.loop.reading - {g}, deferred := s.loop.deferred + {g}))
  }

  /** A policy event concerns a group only if it is newer than one of its sessions. */
  predicate Concerns(r: Registry, key: string, seqNo: nat) {
    key in r.groups && exists x :: x in Sessions(r, r.groups[key]) && Sessions(r, r.groups[key])[x] < seqNo
  }

  function RequestKey(s: State, key: string): State {
    if key in s.reg.groups then Schedule(s, {s.reg.groups[key]}) else s
  }

  function Handle(s: State, e: Event): State {
    match e
    case Register(key, session, n) => s.(reg := RegisterIn(s.reg, key, session, n))
    case Unregister(key, session) => s.(reg := UnregisterIn(s.reg, key, session))
    case PolicyEvent(key, n) => if Concerns(s.reg, key, n) then RequestKey(s, key) else s
    case DeleteEvent(key) => RequestKey(s, key)
    case Connect => Schedule(CancelRetry(s.(connected := true)), s.reg.groups.Values)
    case Disconnect => CancelRetry(s.(connected := false, owed := map[]))
    case TimerFires => TimerStep(s)
    case BeginRead(g, order) => BeginReadStep(s, g, order)
    case ReadAnswers(g, snapshot) => AnswerStep(s, g, snapshot)
    case ReadUnusable(g) => UnusableStep(s, g)
    case ReadFails(g) => ReadFailsStep(s, g)
    case BatchEnds => BatchStep(s)
    case LoopThrows => ThrowStep(s)
    case Finally => FinallyStep(s)
  }

  function Later(s: State): State {
    s.(clock := s.clock + 1)
  }

  function Step(s: State, e: Event): State {
    Handle(Later(s), e)
  }

  function Run(s: State, es: seq<Event>): State
    decreases |es|
  {
    if es == [] then s else Run(Step(s, es[0]), es[1..])
  }
}
