/** The WebSocket lifecycle manager's closure state, updated in place. Every handler is one await-free stretch of the
    source, refines the step it names and keeps the manager's invariant: no live group's request is lost, no group in
    the map is empty, and no session is told twice. */
module LifecycleManager {
  import opened WebSocketLifecycle
  import opened WebSocketProofs

  /** While the subscriber is connected, every live group that is owed a read is looked after. */
  lemma OwedAreTracked(s: State)
    requires Inv(s)
    ensures s.connected ==> forall g :: g in s.owed && Live(s.reg, g) ==> Tracked(s, g)
  {
  }

  lemma ConnectRequestsAll(s: State)
    ensures var t := Step(s, Connect);
      && t.reg == s.reg && t.connected
      && (forall k :: k in s.reg.groups && Live(s.reg, s.reg.groups[k]) ==> s.reg.groups[k] in t.owed)
  {
    var all := s.reg.groups.Values;
    assert forall k :: k in s.reg.groups ==> s.reg.groups[k] in all;
  }

  lemma {:induction false} FailAllRemoves(r: Registry, g: nat, sessions: seq<nat>, x: nat)
    ensures x in Sessions(FailAll(r, g, sessions), g) ==> x in Sessions(r, g) && x !in sessions
  {
    if sessions != [] {
      var n := |sessions| - 1;
      FailAllRemoves(r, g, sessions[..n], x);
      assert sessions == sessions[..n] + [sessions[n]];
    }
  }

  class Manager {
    var clock: nat
    var groups: map<string, nat>
    var keys: map<nat, string>
    var members: map<nat, map<nat, nat>>
    var registered: set<nat>
    var nextGroup: nat
    var signals: seq<Signal>
    var reconcilePending: set<nat>
    var reconcileRetryGroups: set<nat>
    var reconciliation: Loop
    var retryTimer: bool
    var subscriberConnected: bool
    var owed: map<nat, nat>

    ghost predicate Valid()
      reads this
    {
      Inv(View())
    }

    constructor ()
      ensures Valid() && View() == Start()
    {
      clock, groups, keys, members, registered, nextGroup, signals := 0, map[], map[], map[], {}, 0, [];
      reconcilePending, reconcileRetryGroups, reconciliation := {}, {}, Idle;
      retryTimer, subscriberConnected, owed := false, false, map[];
    }

    ghost function Reg(): Registry
      reads this
    {
      Registry(groups, keys, members, registered, nextGroup, signals)
    }

    ghost function View(): State
      reads this
    {
      State(clock, Reg(), reconcilePending, reconcileRetryGroups, reconciliation, retryTimer, subscriberConnected, owed)
    }

    /** The clock ticks before each handler runs. */
    method Advance()
      modifies this`clock
      ensures View() == Later(old(View()))
    {
      clock := clock + 1;
    }

    // ---- Sessions ----

    method RegisterSession(key: string, session: nat, restartSequence: nat)
      modifies this`groups, this`keys, this`members, this`registered, this`nextGroup
      ensures Reg() == RegisterIn(old(Reg()), key, session, restartSequence)
    {
      if session in registered { return; }
      if key !in groups {
        groups, keys := groups[key := nextGroup], keys[nextGroup := key];
        members, nextGroup := members[nextGroup := map[]], nextGroup + 1;
      }
      var g := groups[key];
      members := members[g := (if g in members then members[g] else map[])[session := restartSequence]];
      registered := registered + {session};
    }

    method RemoveSession(g: nat, session: nat)
      modifies this`groups, this`members
      ensures Reg() == Take(old(Reg()), g, session)
    {
      var left := (if g in members then members[g] else map[]) - {session};
      if left == map[] && g in keys && keys[g] in groups && groups[keys[g]] == g { groups := groups - {keys[g]}; }
      members := members[g := left];
    }

    method UnregisterSession(key: string, session: nat)
      modifies this`groups, this`members
      ensures Reg() == UnregisterIn(old(Reg()), key, session)
    {
      if key in groups { RemoveSession(groups[key], session); }
    }

    /** Remove before notifying: a session that is already gone is not told twice. */
    method NotifySession(g: nat, session: nat, d: Disposition)
      modifies this`groups, this`members, this`signals
      ensures Reg() == Notify(old(Reg()), g, session, d)
    {
      if g !in members || session !in members[g] { return; }
      RemoveSession(g, session);
      signals := signals + [Signal(session, d)];
    }

    method SettleSession(g: nat, session: nat, snapshot: Snapshot)
      modifies this`groups, this`members, this`signals
      ensures Reg() == Settle(old(Reg()), g, session, snapshot)
    {
      if g !in members || session !in members[g] { return; }
      var own := members[g][session];
      if snapshot.Inactive? {
        NotifySession(g, session, Restart);
      } else if snapshot.restartSequence < own {
        NotifySession(g, session, Failed);
      } else if snapshot.restartSequence > own && snapshot.restart {
        NotifySession(g, session, Restart);
      } else {
        var newest := if snapshot.restartSequence > own then snapshot.restartSequence else own;
        var kept: map<nat, nat> := members[g][session := newest];
        members := members[g := kept];
      }
    }

    /** The pass over the sessions a read was bound to. */
    method SettleSessions(g: nat, sessions: seq<nat>, snapshot: Snapshot)
      modifies this`groups, this`members, this`signals
      ensures Reg() == SettleAll(old(Reg()), g, sessions, snapshot)
    {
      for i := 0 to |sessions|
        invariant Reg() == SettleAll(old(Reg()), g, sessions[..i], snapshot)
      {
        assert sessions[..i + 1][..i] == sessions[..i];
        SettleSession(g, sessions[i], snapshot);
      }
      assert sessions[..|sessions|] == sessions;
    }

    method FailSessions(g: nat, sessions: seq<nat>)
      modifies this`groups, this`members, this`signals
      ensures Reg() == FailAll(old(Reg()), g, sessions)
    {
      for i := 0 to |sessions|
        invariant Reg() == FailAll(old(Reg()), g, sessions[..i])
      {
        assert sessions[..i + 1][..i] == sessions[..i];
        NotifySession(g, sessions[i], Failed);
      }
      assert sessions[..|sessions|] == sessions;
    }

    // ---- The scheduler ----

    method CancelRetryTimer()
      modifies this`retryTimer, this`reconcileRetryGroups
      ensures View() == CancelRetry(old(View()))
    {
      retryTimer, reconcileRetryGroups := false, {};
    }

    method BeginBatch()
      modifies this`reconciliation, this`reconcilePending, this`reconcileRetryGroups
      ensures View() == StartBatch(old(View()))
    {
      var active := reconcilePending;
      reconcilePending := {};
      reconcileRetryGroups := reconcileRetryGroups - active;
      reconciliation := Running(active, map[], {});
    }

    method ScheduleReconcile(requested: set<nat>)
      modifies this`reconciliation, this`reconcilePending, this`reconcileRetryGroups, this`retryTimer, this`owed
      ensures View() == Schedule(old(View()), requested)
    {
      var live := set g | g in requested && g in keys && keys[g] in groups && groups[keys[g]] == g;
      assert live == set g | g in requested && Live(Reg(), g);
      reconcilePending := reconcilePending + live;
      owed := map g | g in owed.Keys + live :: if g in live then clock else owed[g];
      if reconcilePending == {} {
        if reconciliation.Idle? && reconcileRetryGroups == {} { CancelRetryTimer(); }
        return;
      }
      if reconciliation.Idle? { BeginBatch(); }
    }

    method DeferReconcile()
      modifies this`retryTimer
      ensures View() == DeferRetry(old(View()))
    {
      if retryTimer || !subscriberConnected || reconcileRetryGroups == {} { return; }
      retryTimer := true;
    }

    // ---- Handlers ----

    method Register(key: string, session: nat, restartSequence: nat)
      requires Valid()
      modifies this
      ensures Valid() && View() == Step(old(View()), WebSocketLifecycle.Register(key, session, restartSequence))
      ensures session !in old(registered) ==>
        && key in groups && session in Sessions(Reg(), groups[key])
        && Sessions(Reg(), groups[key])[session] == restartSequence
    {
      hide Inv;
      InvKept(View(), WebSocketLifecycle.Register(key, session, restartSequence));
      Advance();
      RegisterSession(key, session, restartSequence);
    }

    method Unregister(key: string, session: nat)
      requires Valid()
      modifies this
      ensures Valid() && View() == Step(old(View()), WebSocketLifecycle.Unregister(key, session))
      ensures signals == old(signals)
      ensures key in groups ==> session !in Sessions(Reg(), groups[key])
    {
      hide Inv;
      InvKept(View(), WebSocketLifecycle.Unregister(key, session));
      Advance();
      UnregisterSession(key, session);
    }

    /** Whether the event is news to a session of the group. */
    method IsNews(key: string, restartSequence: nat) returns (news: bool)
      ensures news <==> Concerns(Reg(), key, restartSequence)
    {
      if key !in groups { return false; }
      var sessions := if groups[key] in members then members[groups[key]] else map[];
      var rest := sessions.Keys;
      while rest != {}
        invariant rest <= sessions.Keys
        invariant forall x :: x in sessions && x !in rest ==> sessions[x] >= restartSequence
        decreases |rest|
      {
        var x :| x in rest;
        rest := rest - {x};
        if sessions[x] < restartSequence { return true; }
      }
      news := false;
    }

    /** A policy event that is news makes the group owed a read begun from now on, and it is looked after. */
    method OnPolicyEvent(key: string, restartSequence: nat)
      requires Valid()
      modifies this
      ensures Valid() && View() == Step(old(View()), PolicyEvent(key, restartSequence))
      ensures subscriberConnected ==> forall g :: g in owed && Live(Reg(), g) ==> Tracked(View(), g)
    {
      hide Inv;
      InvKept(View(), PolicyEvent(key, restartSequence));
      OwedAreTracked(Step(View(), PolicyEvent(key, restartSequence)));
      Advance();
      var news := IsNews(key, restartSequence);
      if news { ScheduleReconcile({groups[key]}); }
    }

    method OnDeleteEvent(key: string)
      requires Valid()
      modifies this
      ensures Valid() && View() == Step(old(View()), DeleteEvent(key))
      ensures subscriberConnected ==> forall g :: g in owed && Live(Reg(), g) ==> Tracked(View(), g)
    {
      hide Inv;
      InvKept(View(), DeleteEvent(key));
      OwedAreTracked(Step(View(), DeleteEvent(key)));
      Advance();
      if key in groups { ScheduleReconcile({groups[key]}); }
    }

    /** After a reconnect every group in the map is owed a read and looked after. */
    method OnSubscriberConnect()
      requires Valid()
      modifies this
      ensures Valid() && View() == Step(old(View()), Connect)
      ensures forall k :: k in groups && Live(Reg(), groups[k]) ==> groups[k] in owed && Tracked(View(), groups[k])
    {
      hide Inv, Schedule, Tracked;
      InvKept(View(), Connect);
      OwedAreTracked(Step(View(), Connect));
      ConnectRequestsAll(View());
      Advance();
      subscriberConnected := true;
      CancelRetryTimer();
      ScheduleReconcile(groups.Values);
    }

    method OnSubscriberDisconnect()
      requires Valid()
      modifies this
      ensures Valid() && View() == Step(old(View()), Disconnect)
      ensures !retryTimer && reconcileRetryGroups == {}
    {
      hide Inv;
      InvKept(View(), Disconnect);
      Advance();
      subscriberConnected, owed := false, map[];
      CancelRetryTimer();
    }

    /** The live groups up for retry become pending. */
    method TakeRetries()
      modifies this`retryTimer, this`reconcilePending, this`reconcileRetryGroups
      ensures View() == old(View()).(timer := false, retry := {},
        pending := old(reconcilePending) + set g | g in old(reconcileRetryGroups) && Live(old(Reg()), g))
    {
      var live := set g | g in reconcileRetryGroups && g in keys && keys[g] in groups && groups[keys[g]] == g;
      assert live == set g | g in reconcileRetryGroups && Live(Reg(), g);
      retryTimer := false;
      reconcilePending := reconcilePending + live;
      reconcileRetryGroups := {};
    }

    /** The retry timer fires: the live groups up for retry are pending or read again, none is dropped. */
    method OnTimer()
      requires Valid()
      modifies this
      ensures Valid() && View() == Step(old(View()), TimerFires)
      ensures subscriberConnected ==> forall g :: g in owed && Live(Reg(), g) ==> Tracked(View(), g)
    {
      hide Inv;
      InvKept(View(), TimerFires);
      OwedAreTracked(Step(View(), TimerFires));
      Advance();
      if !retryTimer { return; }
      TakeRetries();
      ScheduleReconcile({});
    }

    method OnReadBegins(g: nat, order: seq<nat>)
      requires Valid()
      modifies this
      ensures Valid() && View() == Step(old(View()), BeginRead(g, order))
    {
      hide Inv;
      InvKept(View(), BeginRead(g, order));
      Advance();
      if !reconciliation.Running? || g !in reconciliation.unread { return; }
      if (set x | x in order) != (if g in members then members[g] else map[]).Keys { return; }
      reconciliation := reconciliation.(
        unread := reconciliation.unread - {g},
        reading := reconciliation.reading[g := Reading(order, clock)]);
    }

    /** The read is over; it answers every request made before it began. */
    method EndReading(g: nat)
      requires reconciliation.Running? && g in reconciliation.reading
      modifies this`reconciliation, this`owed
      ensures View() == EndRead(old(View()), g)
    {
      if g in owed && owed[g] < reconciliation.reading[g].began { owed := owed - {g}; }
      reconciliation := reconciliation.(reading := reconciliation.reading - {g});
    }

    /** The policy was read: of the sessions the read was bound to, those that stay carry the sequence it found. */
    method OnReadAnswers(g: nat, snapshot: Snapshot)
      requires Valid()
      modifies this
      ensures Valid() && View() == Step(old(View()), ReadAnswers(g, snapshot))
      ensures old(InRead(View(), g)) ==>
        forall x :: x in old(reconciliation.reading[g].sessions) && x in Sessions(Reg(), g) ==>
        snapshot.Active? && Sessions(Reg(), g)[x] == snapshot.restartSequence
    {
      hide Inv;
      InvKept(View(), ReadAnswers(g, snapshot));
      Advance();
      if !reconciliation.Running? || g !in reconciliation.reading { return; }
      var sessions := reconciliation.reading[g].sessions;
      ghost var reg := Reg();
      EndReading(g);
      SettleSessions(g, sessions, snapshot);
      forall x | x in sessions && x in Sessions(Reg(), g)
        ensures snapshot.Active? && Sessions(Reg(), g)[x] == snapshot.restartSequence
      {
        NoSessionLeftBehind(reg, g, sessions, snapshot, x);
      }
    }

    /** Unusable state: none of the sessions the read was bound to stays. */
    method OnReadUnusable(g: nat)
      requires Valid()
      modifies this
      ensures Valid() && View() == Step(old(View()), ReadUnusable(g))
      ensures old(InRead(View(), g)) ==> forall x :: x in old(reconciliation.reading[g].sessions) ==>
        x !in Sessions(Reg(), g)
    {
      hide Inv;
      InvKept(View(), ReadUnusable(g));
      Advance();
      if !reconciliation.Running? || g !in reconciliation.reading { return; }
      var sessions := reconciliation.reading[g].sessions;
      ghost var reg := Reg();
      EndReading(g);
      FailSessions(g, sessions);
      forall x | x in sessions ensures x !in Sessions(Reg(), g) { FailAllRemoves(reg, g, sessions, x); }
    }

    method OnReadFails(g: nat)
      requires Valid()
      modifies this
      ensures Valid() && View() == Step(old(View()), ReadFails(g)) && owed == old(owed)
    {
      hide Inv;
      InvKept(View(), ReadFails(g));
      Advance();
      if !reconciliation.Running? || g !in reconciliation.reading { return; }
      reconciliation := reconciliation.(
        reading := reconciliation.reading - {g},
        deferred := reconciliation.deferred + {g});
    }

    method OnBatchEnd()
      requires Valid()
      modifies this
      ensures Valid() && View() == Step(old(View()), BatchEnds) && owed == old(owed)
    {
      hide Inv;
      InvKept(View(), BatchEnds);
      Advance();
      if !reconciliation.Running? || reconciliation.unread != {} || reconciliation.reading != map[] { return; }
      reconcileRetryGroups := reconcileRetryGroups + reconciliation.deferred;
      if reconcilePending != {} { BeginBatch(); } else { reconciliation := Exiting; }
    }

    /** The loop's finally: what is still owed is read at once or left to an armed timer. */
    method OnFinally()
      requires Valid()
      modifies this
      ensures Valid() && View() == Step(old(View()), Finally)
      ensures subscriberConnected ==> forall g :: g in owed && Live(Reg(), g) ==> Tracked(View(), g)
    {
      hide Inv, Schedule, Tracked;
      InvKept(View(), Finally);
      OwedAreTracked(Step(View(), Finally));
      Advance();
      if !reconciliation.Exiting? { return; }
      reconciliation := Idle;
      if reconcilePending != {} {
        ScheduleReconcile({});
      } else if reconcileRetryGroups != {} {
        DeferReconcile();
      } else {
        CancelRetryTimer();
      }
    }
  }
}
