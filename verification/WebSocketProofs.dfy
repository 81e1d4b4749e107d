/** No lost reconcile, one disposition per session, no empty group: over every run. */
module WebSocketProofs {
  import opened Prelude
  import opened WebSocketLifecycle

  // ---- Sessions and groups ----

  predicate KeysOk(r: Registry) {
    && (forall g :: g in r.keys ==> g < r.next)
    && (forall g :: g in r.members ==> g in r.keys)
  }

  /** The map holds no empty group, and a group with sessions is in the map. */
  predicate GroupsOk(r: Registry) {
    && (forall k :: k in r.groups ==>
          r.groups[k] in r.keys && r.keys[r.groups[k]] == k && Sessions(r, r.groups[k]) != map[])
    && (forall g :: g in r.members && r.members[g] != map[] ==> Live(r, g))
  }

  /** A session is in one group at most, and in none once it was signalled. */
  predicate SessionsOk(r: Registry) {
    && (forall g, x :: g in r.members && x in r.members[g] ==> x in r.registered)
    && (forall g, h, x :: g in r.members && h in r.members && x in r.members[g] && x in r.members[h] ==> g == h)
  }

  predicate SignalsOk(r: Registry) {
    && (forall i, j :: 0 <= i < j < |r.signals| ==> r.signals[i].session != r.signals[j].session)
    && (forall i :: 0 <= i < |r.signals| ==> r.signals[i].session in r.registered)
    && (forall i, g :: 0 <= i < |r.signals| && g in r.members ==> r.signals[i].session !in r.members[g])
  }

  predicate RegOk(r: Registry) {
    KeysOk(r) && GroupsOk(r) && SessionsOk(r) && SignalsOk(r)
  }

  /** Groups do not come back to life. */
  ghost predicate Fewer(r: Registry, r': Registry) {
    r'.keys == r.keys && forall g :: Live(r', g) ==> Live(r, g)
  }

  lemma TakeGroups(r: Registry, g: nat, session: nat)
    requires KeysOk(r) && GroupsOk(r) && g in r.members
    ensures GroupsOk(Take(r, g, session)) && Fewer(r, Take(r, g, session))
  {
    var t := Take(r, g, session);
    forall h | h in t.members && t.members[h] != map[] ensures Live(t, h) {
      assert h in r.members && r.members[h] != map[];
      assert Live(r, h);
    }
    forall k | k in t.groups ensures Sessions(t, t.groups[k]) != map[] {
      assert Sessions(r, r.groups[k]) != map[];
      assert t.groups[k] == g ==> Live(r, g);
    }
  }

  lemma TakeSessions(r: Registry, g: nat, session: nat)
    requires KeysOk(r) && SessionsOk(r) && SignalsOk(r) && g in r.members
    ensures var t := Take(r, g, session); KeysOk(t) && SessionsOk(t) && SignalsOk(t)
  {
    var t := Take(r, g, session);
    forall h, x | h in t.members && x in t.members[h] ensures h in r.members && x in r.members[h] {}
  }

  lemma TakeOk(r: Registry, g: nat, session: nat)
    requires RegOk(r) && g in r.members
    ensures RegOk(Take(r, g, session)) && Fewer(r, Take(r, g, session))
  {
    TakeGroups(r, g, session);
    TakeSessions(r, g, session);
  }

  /** A signal to a session that is in no group and had none before. */
  lemma SignalledOk(r: Registry, signal: Signal)
    requires RegOk(r) && signal.session in r.registered
    requires forall h :: h in r.members ==> signal.session !in r.members[h]
    requires forall i :: 0 <= i < |r.signals| ==> r.signals[i].session != signal.session
    ensures var t := r.(signals := r.signals + [signal]); RegOk(t) && Fewer(r, t)
  {
    var t := r.(signals := r.signals + [signal]);
    assert forall h :: Live(t, h) <==> Live(r, h);
    assert forall h :: Sessions(t, h) == Sessions(r, h);
  }

  lemma NotifyOk(r: Registry, g: nat, session: nat, d: Disposition)
    requires RegOk(r)
    ensures RegOk(Notify(r, g, session, d)) && Fewer(r, Notify(r, g, session, d))
  {
    hide KeysOk, GroupsOk;
    if session in Sessions(r, g) {
      TakeOk(r, g, session);
      var m := Take(r, g, session);
      assert session in r.members[g];
      forall h | h in m.members ensures session !in m.members[h] {
        assert h != g && session in r.members[h] ==> h == g;
      }
      SignalledOk(m, Signal(session, d));
    }
  }

  lemma SettleOk(r: Registry, g: nat, session: nat, snapshot: Snapshot)
    requires RegOk(r)
    ensures RegOk(Settle(r, g, session, snapshot)) && Fewer(r, Settle(r, g, session, snapshot))
  {
    if session in Sessions(r, g) {
      var own := Sessions(r, g)[session];
      match Judge(snapshot, own)
      case Some(d) => NotifyOk(r, g, session, d);
      case None => UpdatedOk(r, g, session, Sessions(Settle(r, g, session, snapshot), g)[session]);
    }
  }

  lemma UpdatedGroups(r: Registry, g: nat, session: nat, n: nat)
    requires KeysOk(r) && GroupsOk(r) && session in Sessions(r, g)
    ensures var t := r.(members := r.members[g := Sessions(r, g)[session := n]]);
      KeysOk(t) && GroupsOk(t) && Fewer(r, t)
  {
    var t := r.(members := r.members[g := Sessions(r, g)[session := n]]);
    assert session in t.members[g];
    forall h | h in t.members && t.members[h] != map[] ensures Live(t, h) { assert Live(r, h); }
  }

  lemma UpdatedOk(r: Registry, g: nat, session: nat, n: nat)
    requires RegOk(r) && session in Sessions(r, g)
    ensures var t := r.(members := r.members[g := Sessions(r, g)[session := n]]); RegOk(t) && Fewer(r, t)
  {
    hide KeysOk, GroupsOk;
    var t := r.(members := r.members[g := Sessions(r, g)[session := n]]);
    UpdatedGroups(r, g, session, n);
    forall h, x | h in t.members && x in t.members[h] ensures h in r.members && x in r.members[h] {}
  }

  lemma {:induction false} SettleAllOk(r: Registry, g: nat, sessions: seq<nat>, snapshot: Snapshot)
    requires RegOk(r)
    ensures RegOk(SettleAll(r, g, sessions, snapshot)) && Fewer(r, SettleAll(r, g, sessions, snapshot))
  {
    if sessions != [] {
      var n := |sessions| - 1;
      SettleAllOk(r, g, sessions[..n], snapshot);
      SettleOk(SettleAll(r, g, sessions[..n], snapshot), g, sessions[n], snapshot);
    }
  }

  /** A settled session that stays has the sequence that was read; every other was signalled. */
  lemma SettleAgrees(r: Registry, g: nat, session: nat, snapshot: Snapshot)
    ensures var t := Settle(r, g, session, snapshot);
      && (session in Sessions(t, g) ==> snapshot.Active? && Sessions(t, g)[session] == snapshot.restartSequence)
      && (session in Sessions(r, g) && session !in Sessions(t, g) ==>
            |t.signals| == |r.signals| + 1 && Last(t.signals).session == session
            && Some(Last(t.signals).disposition) == Judge(snapshot, Sessions(r, g)[session]))
      && (forall x :: x != session ==>
            && (x in Sessions(t, g) <==> x in Sessions(r, g))
            && (x in Sessions(r, g) ==> Sessions(t, g)[x] == Sessions(r, g)[x]))
  {
  }

  /** No session is left behind by a read: of the sessions it was bound to, those still registered carry the
      sequence that was read, and none is registered when the worker is gone. */
  lemma {:induction false} NoSessionLeftBehind(r: Registry, g: nat, sessions: seq<nat>, snapshot: Snapshot, x: nat)
    requires x in sessions
    ensures var t := SettleAll(r, g, sessions, snapshot);
      x in Sessions(t, g) ==> snapshot.Active? && Sessions(t, g)[x] == snapshot.restartSequence
  {
    var n := |sessions| - 1;
    var m := SettleAll(r, g, sessions[..n], snapshot);
    SettleAgrees(m, g, sessions[n], snapshot);
    if x != sessions[n] {
      assert sessions == sessions[..n] + [sessions[n]];
      NoSessionLeftBehind(r, g, sessions[..n], snapshot, x);
    }
  }

  lemma {:induction false} FailAllOk(r: Registry, g: nat, sessions: seq<nat>)
    requires RegOk(r)
    ensures RegOk(FailAll(r, g, sessions)) && Fewer(r, FailAll(r, g, sessions))
  {
    if sessions != [] {
      var n := |sessions| - 1;
      FailAllOk(r, g, sessions[..n]);
      NotifyOk(FailAll(r, g, sessions[..n]), g, sessions[n], Failed);
    }
  }

  lemma RegisterSessions(r: Registry, key: string, session: nat, seqNo: nat)
    requires RegOk(r) && session !in r.registered
    ensures SessionsOk(RegisterIn(r, key, session, seqNo)) && SignalsOk(RegisterIn(r, key, session, seqNo))
  {
    var t, m := RegisterIn(r, key, session, seqNo), Ensure(r, key);
    var g := m.groups[key];
    forall h, x | h in t.members && x in t.members[h]
      ensures if x == session then h == g else h in r.members && x in r.members[h]
    {}
  }

  /** A group that was just made is the only one without sessions. */
  lemma EnsureGroups(r: Registry, key: string)
    requires KeysOk(r) && GroupsOk(r)
    ensures var m := Ensure(r, key);
      && KeysOk(m) && key in m.groups && m.groups[key] in m.keys && m.keys[m.groups[key]] == key
      && (forall k :: k in m.groups && k != key ==>
            m.groups[k] in m.keys && m.keys[m.groups[k]] == k && Sessions(m, m.groups[k]) != map[])
      && (forall h :: h in m.members && m.members[h] != map[] ==> Live(m, h))
  {
    var m := Ensure(r, key);
    forall k | k in m.groups && k != key ensures Sessions(m, m.groups[k]) != map[] {
      assert Sessions(r, r.groups[k]) != map[];
    }
    forall h | h in m.members && m.members[h] != map[] ensures Live(m, h) { assert Live(r, h); }
  }

  lemma RegisterGroups(r: Registry, key: string, session: nat, seqNo: nat)
    requires RegOk(r) && session !in r.registered
    ensures KeysOk(RegisterIn(r, key, session, seqNo)) && GroupsOk(RegisterIn(r, key, session, seqNo))
  {
    hide SessionsOk, SignalsOk, Ensure;
    var t, m := RegisterIn(r, key, session, seqNo), Ensure(r, key);
    EnsureGroups(r, key);
    assert session in t.members[m.groups[key]];
    forall h | h in t.members && t.members[h] != map[] ensures Live(t, h) {
      if h != m.groups[key] { assert Live(m, h); }
    }
  }

  lemma RegisterOk(r: Registry, key: string, session: nat, seqNo: nat)
    requires RegOk(r)
    ensures RegOk(RegisterIn(r, key, session, seqNo))
    ensures r.keys.Keys <= RegisterIn(r, key, session, seqNo).keys.Keys
    ensures forall g :: g in r.keys && Live(RegisterIn(r, key, session, seqNo), g) ==> Live(r, g)
  {
    if session !in r.registered {
      RegisterSessions(r, key, session, seqNo);
      RegisterGroups(r, key, session, seqNo);
    }
  }

  lemma UnregisterOk(r: Registry, key: string, session: nat)
    requires RegOk(r)
    ensures RegOk(UnregisterIn(r, key, session)) && Fewer(r, UnregisterIn(r, key, session))
  {
    if key in r.groups {
      assert Sessions(r, r.groups[key]) != map[];
      TakeOk(r, r.groups[key], session);
    }
  }

  // ---- The scheduler ----

  /** A request is being looked after. */
  predicate Tracked(s: State, g: nat)
    requires g in s.owed
  {
    || g in s.pending
    || (s.loop.Running? && (g in s.loop.unread || g in s.loop.deferred
          || (g in s.loop.reading && s.owed[g] < s.loop.reading[g].began)))
    || (g in s.retry && (s.timer || !s.loop.Idle?))
  }

  predicate OwedOk(s: State) {
    && (forall g :: g in s.owed ==> g in s.reg.keys && s.owed[g] <= s.clock)
    && (s.connected ==> forall g :: g in s.owed && Live(s.reg, g) ==> Tracked(s, g))
  }

  predicate Inv(s: State) {
    RegOk(s.reg) && OwedOk(s)
  }

  /** As a handler finds the state: the clock is past every request. */
  predicate Ready(s: State) {
    Inv(s) && forall g :: g in s.owed ==> s.owed[g] < s.clock
  }

  lemma KickOk(s: State)
    requires Inv(s)
    ensures Inv(Kick(s))
  {
    var t := Kick(s);
    forall g | g in t.owed && Live(t.reg, g) && t.connected ensures Tracked(t, g) { assert Tracked(s, g); }
  }

  lemma ScheduleOk(s: State, requested: set<nat>)
    requires RegOk(s.reg) && (forall g :: g in s.owed ==> g in s.reg.keys && s.owed[g] <= s.clock)
    requires s.connected ==> forall g :: g in s.owed && Live(s.reg, g) ==> g in requested || Tracked(s, g)
    ensures Inv(Schedule(s, requested))
  {
    var t := Request(s, requested);
    forall g | g in t.owed && Live(t.reg, g) && t.connected ensures Tracked(t, g) {
      if g !in requested { assert Tracked(s, g); }
    }
    KickOk(t);
  }

  lemma RegistryKept(s: State, reg: Registry)
    requires Ready(s) && RegOk(reg) && s.reg.keys.Keys <= reg.keys.Keys
    requires forall g :: g in s.reg.keys && Live(reg, g) ==> Live(s.reg, g)
    ensures Inv(s.(reg := reg))
  {
    var t := s.(reg := reg);
    forall g | g in t.owed && Live(t.reg, g) && t.connected ensures Tracked(t, g) { assert Tracked(s, g); }
  }

  lemma EndReadOk(s: State, g: nat)
    requires Ready(s) && InRead(s, g)
    ensures Ready(EndRead(s, g))
  {
    var t := EndRead(s, g);
    forall h | h in t.owed && Live(t.reg, h) && t.connected ensures Tracked(t, h) { assert Tracked(s, h); }
  }

  lemma ReadsKept(s: State, e: Event)
    requires Ready(s) && (e.ReadAnswers? || e.ReadUnusable?)
    ensures Inv(Handle(s, e))
  {
    if InRead(s, e.g) {
      var t := EndRead(s, e.g);
      EndReadOk(s, e.g);
      var sessions := s.loop.reading[e.g].sessions;
      if e.ReadAnswers? {
        SettleAllOk(s.reg, e.g, sessions, e.snapshot);
        RegistryKept(t, SettleAll(s.reg, e.g, sessions, e.snapshot));
      } else {
        FailAllOk(s.reg, e.g, sessions);
        RegistryKept(t, FailAll(s.reg, e.g, sessions));
      }
    }
  }

  lemma LoopKept(s: State, e: Event)
    requires Ready(s) && (e.BeginRead? || e.ReadFails? || e.BatchEnds? || e.LoopThrows?)
    ensures Inv(Handle(s, e))
  {
    hide RegOk;
    var t := Handle(s, e);
    forall g | g in t.owed && Live(t.reg, g) && t.connected ensures Tracked(t, g) { assert Tracked(s, g); }
  }

  lemma FinallyKept(s: State)
    requires Ready(s)
    ensures Inv(FinallyStep(s))
  {
    if s.loop.Exiting? {
      var t := s.(loop := Idle);
      forall g | g in s.owed && Live(s.reg, g) && s.connected ensures g in s.pending || g in s.retry {
        assert Tracked(s, g);
      }
      if t.pending != {} {
        FinallyRestarts(s);
      } else if t.retry != {} {
        var u := DeferRetry(t);
        forall g | g in u.owed && Live(u.reg, g) && u.connected ensures Tracked(u, g) {}
      } else {
        var u := CancelRetry(t);
        assert forall g :: g in u.owed && Live(u.reg, g) ==> !u.connected;
      }
    }
  }

  lemma FinallyRestarts(s: State)
    requires Ready(s) && s.loop.Exiting? && s.pending != {}
    ensures Inv(Schedule(s.(loop := Idle), {}))
  {
    var t := Schedule(s.(loop := Idle), {});
    assert t.loop.Running? && t.loop.unread == s.pending;
    forall g | g in t.owed && Live(t.reg, g) && t.connected ensures Tracked(t, g) {
      assert g in s.owed && Tracked(s, g);
    }
  }

  lemma TimerKept(s: State)
    requires Ready(s)
    ensures Inv(TimerStep(s))
  {
    if s.timer {
      var live := set g | g in s.retry && Live(s.reg, g);
      var m := s.(timer := false, pending := s.pending + live, retry := {});
      forall g | g in m.owed && Live(m.reg, g) && m.connected ensures Tracked(m, g) { assert Tracked(s, g); }
      ScheduleOk(m, {});
    }
  }

  lemma ConnectKept(s: State)
    requires Ready(s)
    ensures Inv(Handle(s, Connect))
  {
    var m := CancelRetry(s.(connected := true));
    forall g | g in m.owed && Live(m.reg, g) ensures g in s.reg.groups.Values {
      assert s.reg.keys[g] in s.reg.groups;
    }
    ScheduleOk(m, s.reg.groups.Values);
  }

  lemma HandleKept(s: State, e: Event)
    requires Ready(s)
    ensures Inv(Handle(s, e))
  {
    hide RegOk;
    match e
    case Register(key, session, n) =>
      RegisterOk(s.reg, key, session, n);
      RegistryKept(s, RegisterIn(s.reg, key, session, n));
    case Unregister(key, session) =>
      UnregisterOk(s.reg, key, session);
      RegistryKept(s, UnregisterIn(s.reg, key, session));
    case PolicyEvent(key, n) => if key in s.reg.groups { ScheduleOk(s, {s.reg.groups[key]}); }
    case DeleteEvent(key) => if key in s.reg.groups { ScheduleOk(s, {s.reg.groups[key]}); }
    case Connect => ConnectKept(s);
    case Disconnect =>
    case TimerFires => TimerKept(s);
    case ReadAnswers(_, _) => ReadsKept(s, e);
    case ReadUnusable(_) => ReadsKept(s, e);
    case Finally => FinallyKept(s);
    case _ => LoopKept(s, e);
  }

  lemma ReadyAtNextInstant(s: State)
    requires Inv(s)
    ensures Ready(Later(s))
  {
    var t := Later(s);
    forall g | g in t.owed && Live(t.reg, g) && t.connected ensures Tracked(t, g) { assert Tracked(s, g); }
  }

  lemma InvKept(s: State, e: Event)
    requires Inv(s)
    ensures Inv(Step(s, e))
  {
    ReadyAtNextInstant(s);
    HandleKept(Later(s), e);
  }

  function Start(): State {
    State(0, Registry(map[], map[], map[], {}, 0, []), {}, {}, Idle, false, false, map[])
  }

  lemma {:induction false} InvAlong(s: State, es: seq<Event>)
    requires Inv(s)
    ensures Inv(Run(s, es))
    decreases |es|
  {
    if es != [] {
      InvKept(s, es[0]);
      InvAlong(Step(s, es[0]), es[1..]);
    }
  }

  /** No lost reconcile: while the subscriber is connected, a live group with a request no read begun after it
      has answered is pending, in the running batch, or up for retry with the loop running or its timer
      armed. No group in the map is empty, and no session is signalled twice. */
  lemma NoLostReconcile(es: seq<Event>)
    ensures var t := Run(Start(), es);
      && (t.connected ==> forall g :: g in t.owed && Live(t.reg, g) ==> Tracked(t, g))
      && (forall k :: k in t.reg.groups ==> Sessions(t.reg, t.reg.groups[k]) != map[])
      && (forall i, j :: 0 <= i < j < |t.reg.signals| ==> t.reg.signals[i].session != t.reg.signals[j].session)
  {
    InvAlong(Start(), es);
  }

  lemma SchedulingOwes(s: State, requested: set<nat>)
    ensures s.owed.Keys <= Schedule(s, requested).owed.Keys
  {
  }

  /** A request is answered only by a read begun after it: until then the group stays owed. */
  lemma RequestStaysOwed(s: State, e: Event, g: nat)
    requires g in s.owed && !e.Disconnect? && g !in Handle(s, e).owed
    ensures (e.ReadAnswers? || e.ReadUnusable?) && e.g == g && InRead(s, g) && s.owed[g] < s.loop.reading[g].began
  {
    hide SettleAll, FailAll, RegisterIn, UnregisterIn, Concerns, Schedule;
    match e
    case PolicyEvent(key, _) => if key in s.reg.groups { SchedulingOwes(s, {s.reg.groups[key]}); }
    case DeleteEvent(key) => if key in s.reg.groups { SchedulingOwes(s, {s.reg.groups[key]}); }
    case Connect => SchedulingOwes(CancelRetry(s.(connected := true)), s.reg.groups.Values);
    case TimerFires =>
      var live := set x | x in s.retry && Live(s.reg, x);
      SchedulingOwes(s.(timer := false, pending := s.pending + live, retry := {}), {});
    case Finally => SchedulingOwes(s.(loop := Idle), {});
    case _ =>
  }

  lemma RequestStartsBatch(s: State, key: string)
    requires GroupsOk(s.reg) && s.loop.Idle? && s.pending == {} && key in s.reg.groups
    ensures var g, t := s.reg.groups[key], RequestKey(s, key);
      && t.loop == Running({g}, map[], {}) && t.reg == s.reg && t.clock == s.clock
      && g in t.owed && t.owed[g] == s.clock
  {
    var g := s.reg.groups[key];
    assert Live(s.reg, g);
    assert Request(s, {g}).pending == {g};
  }

  /** An idle scheduler answers a request with one read: the group is read and no longer owed. */
  lemma IdleRequestIsAnswered(s: State, key: string, order: seq<nat>, snapshot: Snapshot)
    requires GroupsOk(s.reg) && s.loop.Idle? && s.pending == {} && key in s.reg.groups
    requires (set x | x in order) == Sessions(s.reg, s.reg.groups[key]).Keys
    ensures var g, t := s.reg.groups[key], RequestKey(s, key);
      var r := BeginReadStep(Later(t), g, order);
      InRead(r, g) && g !in AnswerStep(r, g, snapshot).owed
  {
    RequestStartsBatch(s, key);
  }
}
