/** The alarm shim's promises, over whole runs. */
module AlarmTheorems {
  import opened Prelude
  import opened AlarmTokens
  import opened AlarmProtocol
  import opened AlarmProofs

  /** An object as it is loaded: nothing queued, no transaction, backend and row in agreement. */
  predicate Init(s: State) {
    && s.queue == [] && !s.applied && s.frames == [] && s.active.None? && s.finishing == {}
    && s.index == LiveToken(s.row) && ReadableRow(s.row) && RowOk(s.row, s.used)
  }

  lemma InitMirrors(s: State)
    requires Init(s)
    ensures Mirror(s)
  {
  }

  lemma {:induction false} MirrorAlong(s: State, es: seq<Event>)
    requires Mirror(s) && forall i :: 0 <= i < |es| ==> Clean(es[i])
    ensures Mirror(Run(s, es))
    decreases |es|
  {
    if es != [] {
      MirrorKept(s, es[0]);
      MirrorAlong(Step(s, es[0]), es[1..]);
    }
  }

  /** No lost alarm, and no stray one: on every run without backend failures, whenever the
      mutation queue is empty the backend holds exactly the live row's token. */
  lemma NoLostAlarm(s: State, es: seq<Event>)
    requires Init(s) && forall i :: 0 <= i < |es| ==> Clean(es[i])
    ensures Run(s, es).queue == [] ==> Run(s, es).index == LiveToken(Run(s, es).row)
  {
    InitMirrors(s);
    MirrorAlong(s, es);
  }

  /** A transaction that is rolled back or fails leaves the backend headed where it was. */
  lemma RolledBackTransactionIsInvisible(s: State, es: seq<Event>)
    requires Init(s) && forall i :: 0 <= i < |es| ==> Clean(es[i])
    ensures var t := Run(s, es);
      |t.frames| == 1 && t.frames[0].closed && !t.frames[0].rolledBack ==>
        && Step(t, Abort).row == t.frames[0].savepoint
        && Target(Step(t, Abort), false) == LiveToken(t.frames[0].savepoint)
  {
    hide Init, Run, Structure, Tokens, Readable, Sparing, Target;
    InitMirrors(s);
    MirrorAlong(s, es);
    MirrorKept(Run(s, es), Abort);
  }

  // ---- Lineage: nothing older undoes the newest call, whatever the backend answers ----

  predicate Inv(s: State) {
    Structure(s) && Tokens(s)
  }

  lemma {:induction false} InvAlong(s: State, es: seq<Event>)
    requires Inv(s)
    ensures Inv(Run(s, es))
    decreases |es|
  {
    if es != [] {
      StructureKept(s, es[0]);
      TokensKept(s, es[0]);
      InvAlong(Step(s, es[0]), es[1..]);
    }
  }

  /** Steps that are older business than the call whose mutation is `own`, made when `mark` was the next transaction
      id: not a newer set or delete, not the completion of the very alarm the call set, not the rollback of a
      transaction that was open at the call, and not the report that `own` itself failed. */
  predicate Background(s: State, e: Event, own: Mutation, mark: nat) {
    && !e.SetAlarm? && !e.DeleteAlarm?
    && (e.Complete? && own.SetIndex? ==> e.claimed != own.token)
    && ((e.Rollback? || e.Abort?) && s.frames != [] ==> Last(s.frames).id >= mark)
    && !(e.Fail? && s.queue != [] && s.queue[0] == Ready(own))
  }

  predicate Undisturbed(s: State, es: seq<Event>, own: Mutation, mark: nat)
    decreases |es|
  {
    es == [] || (Background(s, es[0], own, mark) && Undisturbed(Step(s, es[0]), es[1..], own, mark))
  }

  /** Every mutation an entry holds. */
  predicate Mentions(e: Entry, m: Mutation) {
    match e
    case Ready(m') => m' == m
    case Held(_, effects, _) => m in effects
  }

  /** Background steps bring no delete into the queue. */
  lemma NoNewDeletes(s: State, e: Event, own: Mutation, mark: nat, i: nat, m: Mutation)
    requires Background(s, e, own, mark) && i < |Step(s, e).queue| && Mentions(Step(s, e).queue[i], m) && m.DeleteIndex?
    ensures exists j :: 0 <= j < |s.queue| && Mentions(s.queue[j], m)
  {
    var t := Step(s, e);
    if |t.queue| < |s.queue| { assert Mentions(s.queue[i + 1], m); }
    else { assert i < |s.queue| && Mentions(s.queue[i], m); }
  }

  predicate AlarmRow(row: Option<Row>, uuid: string, at: int) {
    row.Some? && row.value.token == uuid && row.value.scheduled == at && ValidFields(row.value)
  }

  /** The alarm is in the row and in every savepoint taken since, and nothing queued deletes or restores over it. */
  ghost predicate AlarmKept(s: State, uuid: string, at: int, mark: nat) {
    && AlarmRow(s.row, uuid, at) && mark <= s.nextId
    && (forall k :: 0 <= k < |s.frames| && s.frames[k].id >= mark ==> AlarmRow(s.frames[k].savepoint, uuid, at))
    && (forall i, m :: 0 <= i < |s.queue| && Mentions(s.queue[i], m) ==>
          m.DeleteIndex? ==> m.token != uuid && m.fence != uuid)
  }

  lemma AlarmKeptStep(s: State, e: Event, uuid: string, at: int, mark: nat)
    requires IsUuid(uuid) && AlarmKept(s, uuid, at, mark) && Background(s, e, SetIndex(uuid), mark)
    ensures AlarmKept(Step(s, e), uuid, at, mark)
  {
    UuidIsNotFence(uuid);
    var t := Step(s, e);
    if s.queue != [] && s.queue[0].Ready? { assert Mentions(s.queue[0], s.queue[0].mutation); }
    if s.frames != [] { assert Last(s.frames) == s.frames[|s.frames| - 1]; }
    forall i, m | 0 <= i < |t.queue| && Mentions(t.queue[i], m) && m.DeleteIndex?
      ensures m.token != uuid && m.fence != uuid
    {
      NoNewDeletes(s, e, SetIndex(uuid), mark, i, m);
    }
  }

  lemma {:induction false} AlarmKeptAlong(s: State, es: seq<Event>, uuid: string, at: int, mark: nat)
    requires IsUuid(uuid) && AlarmKept(s, uuid, at, mark) && Undisturbed(s, es, SetIndex(uuid), mark)
    ensures AlarmKept(Run(s, es), uuid, at, mark)
    decreases |es|
  {
    if es != [] {
      AlarmKeptStep(s, es[0], uuid, at, mark);
      AlarmKeptAlong(Step(s, es[0]), es[1..], uuid, at, mark);
    }
  }

  lemma FreshAlarmKept(s: State, time: real, uuid: string)
    requires Inv(s) && Fresh(s, uuid) && ScopeOf(s) != Refused && time >= 1.0
    ensures AlarmKept(SetAlarmStep(s, time, uuid), uuid, time.Floor, s.nextId)
  {
    var t := SetAlarmStep(s, time, uuid);
    UuidIsNotFence(uuid);
    forall i, m | 0 <= i < |t.queue| && Mentions(t.queue[i], m) && m.DeleteIndex?
      ensures m.token != uuid && m.fence != uuid
    {
      assert i < |s.queue| && Mentions(s.queue[i], m);
      assert EntryTokensOk(s.queue[i], s.used);
      assert MutationOk(m, s.used);
      var u :| u in s.used && IsUuid(u) && m.fence == DeleteFence(u, m.token);
      LineageUndoesFence(u, m.token);
    }
  }

  /** A newly set alarm stays in the row while any number of older sets, deletes, repairs and alarms complete,
      succeed, fail or are compensated and later transactions commit or roll back, in any order. */
  lemma NewestAlarmSurvives(s0: State, before: seq<Event>, time: real, uuid: string, after: seq<Event>)
    requires Init(s0) && time >= 1.0
    requires var s := Run(s0, before);
      && Fresh(s, uuid) && ScopeOf(s) != Refused
      && Undisturbed(SetAlarmStep(s, time, uuid), after, SetIndex(uuid), s.nextId)
    ensures AlarmRow(Run(SetAlarmStep(Run(s0, before), time, uuid), after).row, uuid, time.Floor)
  {
    var s := Run(s0, before);
    InvAlong(s0, before);
    FreshAlarmKept(s, time, uuid);
    AlarmKeptAlong(SetAlarmStep(s, time, uuid), after, uuid, time.Floor, s.nextId);
  }

  /** Over the same runs, a set whose own backend call then fails takes exactly its own alarm back. */
  lemma FailedSetTakesItsAlarmBack(s0: State, before: seq<Event>, time: real, uuid: string, after: seq<Event>)
    requires Init(s0) && time >= 1.0
    requires var s := Run(s0, before);
      && Fresh(s, uuid) && ScopeOf(s) != Refused
      && Undisturbed(SetAlarmStep(s, time, uuid), after, SetIndex(uuid), s.nextId)
    requires var t := Run(SetAlarmStep(Run(s0, before), time, uuid), after);
      t.queue != [] && t.queue[0] == Ready(SetIndex(uuid))
    ensures Step(Run(SetAlarmStep(Run(s0, before), time, uuid), after), Fail).row == None
  {
    NewestAlarmSurvives(s0, before, time, uuid, after);
  }

  predicate GoneRow(row: Option<Row>, own: Mutation) {
    row.Some? ==> own.DeleteIndex? && row.value.token == own.fence
  }

  /** The row and every savepoint taken since hold at most the delete's own tombstone. */
  ghost predicate DeleteKept(s: State, own: Mutation, mark: nat) {
    && GoneRow(s.row, own) && mark <= s.nextId
    && (forall k :: 0 <= k < |s.frames| && s.frames[k].id >= mark ==> GoneRow(s.frames[k].savepoint, own))
    && (forall i, m :: 0 <= i < |s.queue| && Mentions(s.queue[i], m) ==>
          m.DeleteIndex? && own.DeleteIndex? && m.fence == own.fence ==> m == own)
  }

  lemma DeleteKeptStep(s: State, e: Event, own: Mutation, mark: nat)
    requires DeleteKept(s, own, mark) && (own.DeleteIndex? ==> IsDeleteFence(own.fence)) && Background(s, e, own, mark)
    ensures DeleteKept(Step(s, e), own, mark)
  {
    var t := Step(s, e);
    if s.queue != [] && s.queue[0].Ready? { assert Mentions(s.queue[0], s.queue[0].mutation); }
    if s.frames != [] { assert Last(s.frames) == s.frames[|s.frames| - 1]; }
    forall i, m |
      0 <= i < |t.queue| && Mentions(t.queue[i], m) && m.DeleteIndex? && own.DeleteIndex? && m.fence == own.fence
      ensures m == own
    {
      NoNewDeletes(s, e, own, mark, i, m);
    }
  }

  lemma {:induction false} DeleteKeptAlong(s: State, es: seq<Event>, own: Mutation, mark: nat)
    requires DeleteKept(s, own, mark) && (own.DeleteIndex? ==> IsDeleteFence(own.fence))
    requires Undisturbed(s, es, own, mark)
    ensures DeleteKept(Run(s, es), own, mark)
    decreases |es|
  {
    if es != [] {
      DeleteKeptStep(s, es[0], own, mark);
      DeleteKeptAlong(Step(s, es[0]), es[1..], own, mark);
    }
  }

  lemma FreshDeleteKept(s: State, uuid: string)
    requires Inv(s) && Fresh(s, uuid) && ScopeOf(s) != Refused
    ensures var own := DeleteMutation(s, uuid);
      && DeleteKept(DeleteAlarmStep(s, uuid), own, s.nextId)
      && (own.DeleteIndex? ==> IsDeleteFence(own.fence) && Lineage(own.fence) == own.token)
  {
    var t, own := DeleteAlarmStep(s, uuid), DeleteMutation(s, uuid);
    if own.DeleteIndex? { LineageUndoesFence(uuid, own.token); }
    forall i, m |
      0 <= i < |t.queue| && Mentions(t.queue[i], m) && m.DeleteIndex? && own.DeleteIndex? && m.fence == own.fence
      ensures m == own
    {
      if i < |s.queue| && Mentions(s.queue[i], m) {
        assert EntryTokensOk(s.queue[i], s.used) && MutationOk(m, s.used);
        var u :| u in s.used && IsUuid(u) && m.fence == DeleteFence(u, m.token);
        FenceInjective(u, m.token, uuid, own.token);
      }
    }
  }

  lemma DeletedAlong(s0: State, before: seq<Event>, uuid: string, after: seq<Event>)
    requires Init(s0)
    requires var s := Run(s0, before);
      && Fresh(s, uuid) && ScopeOf(s) != Refused
      && Undisturbed(DeleteAlarmStep(s, uuid), after, DeleteMutation(s, uuid), s.nextId)
    ensures var s := Run(s0, before);
      && DeleteKept(Run(DeleteAlarmStep(s, uuid), after), DeleteMutation(s, uuid), s.nextId)
      && (DeleteMutation(s, uuid).DeleteIndex? ==>
            && IsDeleteFence(DeleteMutation(s, uuid).fence)
            && Lineage(DeleteMutation(s, uuid).fence) == DeleteMutation(s, uuid).token)
  {
    var s := Run(s0, before);
    InvAlong(s0, before);
    FreshDeleteKept(s, uuid);
    DeleteKeptAlong(DeleteAlarmStep(s, uuid), after, DeleteMutation(s, uuid), s.nextId);
  }

  /** Once `deleteAlarm()` has been called, whether or not there was an alarm to delete, no older mutation that
      completes, fails or is compensated, and no later transaction that rolls back, brings an alarm back. */
  lemma DeletedAlarmStaysDeleted(s0: State, before: seq<Event>, uuid: string, after: seq<Event>)
    requires Init(s0)
    requires var s := Run(s0, before);
      && Fresh(s, uuid) && ScopeOf(s) != Refused
      && Undisturbed(DeleteAlarmStep(s, uuid), after, DeleteMutation(s, uuid), s.nextId)
    ensures LiveToken(Run(DeleteAlarmStep(Run(s0, before), uuid), after).row) == None
  {
    DeletedAlong(s0, before, uuid, after);
  }

  lemma OwnDeleteAnswered(t: State, own: Mutation, mark: nat)
    requires DeleteKept(t, own, mark) && own.DeleteIndex? && Lineage(own.fence) == own.token
    requires t.queue != [] && t.queue[0] == Ready(own)
    ensures FailStep(t).row == (if t.row.Some? then Some(own.saved) else None)
    ensures SucceedStep(ApplyStep(t)).row == None
  {
  }

  /** Over the same runs, when the delete's own backend call is answered: success removes the tombstone, failure
      puts back exactly the row that was deleted, unless that alarm has completed meanwhile. */
  lemma DeleteFailsOrCompletes(s0: State, before: seq<Event>, uuid: string, after: seq<Event>)
    requires Init(s0)
    requires var s := Run(s0, before);
      && Fresh(s, uuid) && ScopeOf(s) != Refused
      && Undisturbed(DeleteAlarmStep(s, uuid), after, DeleteMutation(s, uuid), s.nextId)
      && DeleteTarget(s).Some?
    requires var t := Run(DeleteAlarmStep(Run(s0, before), uuid), after);
      t.queue != [] && t.queue[0] == Ready(DeleteMutation(Run(s0, before), uuid))
    ensures var t := Run(DeleteAlarmStep(Run(s0, before), uuid), after);
      && Step(t, Fail).row == (if t.row.Some? then DeleteTarget(Run(s0, before)) else None)
      && Step(Step(t, Apply), Succeed).row == None
  {
    hide Init, Run, Undisturbed, DeleteKept, DeleteAlarmStep, ApplyStep, SucceedStep, FailStep;
    DeletedAlong(s0, before, uuid, after);
    var s := Run(s0, before);
    OwnDeleteAnswered(Run(DeleteAlarmStep(s, uuid), after), DeleteMutation(s, uuid), s.nextId);
  }

  // ---- Claims and completions ----

  /** The row, and every row a transaction may put back, is the alarm `token` or its tombstone. */
  predicate OnlyAlarm(s: State, token: string) {
    && (s.row.Some? ==> Lineage(s.row.value.token) == token)
    && (forall k :: 0 <= k < |s.frames| ==> s.frames[k].savepoint.Some? ==>
          Lineage(s.frames[k].savepoint.value.token) == token)
  }

  lemma OnlyAlarmDelete(s: State, uuid: string, token: string)
    requires Inv(s) && OnlyAlarm(s, token)
    ensures OnlyAlarm(DeleteAlarmStep(s, uuid), token)
  {
    if DeleteAlarmStep(s, uuid) != s && DeleteTarget(s).Some? {
      FenceTokenOk(uuid, Lineage(DeleteTarget(s).value.token), s.used + {uuid});
    }
  }

  lemma OnlyAlarmFail(s: State, token: string)
    requires Inv(s) && OnlyAlarm(s, token)
    ensures OnlyAlarm(FailStep(s), token)
  {
    if s.queue != [] && s.queue[0].Ready? && s.queue[0].mutation.DeleteIndex? {
      var m := s.queue[0].mutation;
      assert EntryTokensOk(s.queue[0], s.used) && MutationOk(m, s.used);
      var u :| u in s.used && IsUuid(u) && m.fence == DeleteFence(u, m.token);
      LineageUndoesFence(u, m.token);
    }
  }

  predicate IsFrameEvent(e: Event) {
    e.Begin? || e.EndCallback? || e.Rollback? || e.Commit? || e.Abort?
  }

  lemma OnlyAlarmFrames(s: State, e: Event, token: string)
    requires OnlyAlarm(s, token) && IsFrameEvent(e)
    ensures OnlyAlarm(Step(s, e), token)
  {
    hide Lineage;
    if s.frames != [] { assert Last(s.frames) == s.frames[|s.frames| - 1]; }
  }

  lemma OnlyAlarmOthers(s: State, e: Event, token: string)
    requires OnlyAlarm(s, token) && !e.SetAlarm? && !e.DeleteAlarm? && !e.Fail? && !IsFrameEvent(e)
    ensures OnlyAlarm(Step(s, e), token)
  {
    hide Lineage;
  }

  lemma OnlyAlarmKept(s: State, e: Event, token: string)
    requires Inv(s) && OnlyAlarm(s, token) && !e.SetAlarm?
    ensures OnlyAlarm(Step(s, e), token)
  {
    if e.DeleteAlarm? { OnlyAlarmDelete(s, e.uuid, token); }
    else if e.Fail? { OnlyAlarmFail(s, token); }
    else if IsFrameEvent(e) { OnlyAlarmFrames(s, e, token); }
    else { OnlyAlarmOthers(s, e, token); }
  }

  lemma {:induction false} OnlyAlarmAlong(s: State, es: seq<Event>, token: string)
    requires Inv(s) && OnlyAlarm(s, token) && forall i :: 0 <= i < |es| ==> !es[i].SetAlarm?
    ensures OnlyAlarm(Run(s, es), token)
    decreases |es|
  {
    if es != [] {
      OnlyAlarmKept(s, es[0], token);
      StructureKept(s, es[0]);
      TokensKept(s, es[0]);
      OnlyAlarmAlong(Step(s, es[0]), es[1..], token);
    }
  }

  /** Completing an alarm ends it for good: whatever deletes, repairs, transactions and backend answers ran since
      it was claimed, unless a new alarm was set no row is left. */
  lemma CompletionEndsItsAlarm(s0: State, before: seq<Event>, after: seq<Event>, token: string)
    requires Init(s0)
    requires var s := Run(s0, before); LiveToken(s.row) == Some(token) && s.frames == []
    requires forall i :: 0 <= i < |after| ==> !after[i].SetAlarm?
    ensures Step(Run(Run(s0, before), after), Complete(token)).row == None
  {
    InvAlong(s0, before);
    OnlyAlarmAlong(Run(s0, before), after, token);
  }

  /** The row and every savepoint is in flight, or gone. */
  predicate Hidden(s: State) {
    && (s.row.Some? ==> s.row.value.inFlight)
    && (forall k :: 0 <= k < |s.frames| ==> s.frames[k].savepoint.Some? ==> s.frames[k].savepoint.value.inFlight)
  }

  lemma {:induction false} HiddenAlong(s: State, es: seq<Event>)
    requires Hidden(s) && forall i :: 0 <= i < |es| ==> !es[i].SetAlarm? && !es[i].Fail?
    ensures Hidden(Run(s, es))
    decreases |es|
  {
    if es != [] {
      if s.frames != [] { assert Last(s.frames) == s.frames[|s.frames| - 1]; }
      HiddenAlong(Step(s, es[0]), es[1..]);
    }
  }

  /** A claim takes an alarm exactly when it is due or already in flight; from then on `getAlarm()` reports none
      until a new one is set or a delete of it fails. */
  lemma ClaimedAlarmIsHidden(s: State, now: int, es: seq<Event>)
    requires ReadableRow(s.row) && LiveToken(s.row).Some? && s.frames == []
    requires forall i :: 0 <= i < |es| ==> !es[i].SetAlarm? && !es[i].Fail?
    ensures var t := Step(s, Claim(Some(s.row.value.token), None, now));
      && LiveToken(t.row) == LiveToken(s.row) && t.row.value.scheduled == s.row.value.scheduled
      && (t.row.value.inFlight <==> s.row.value.inFlight || s.row.value.scheduled <= now)
      && (t.row.value.inFlight ==> GetAlarmResult(Run(t, es)) == None)
  {
    var t := Step(s, Claim(Some(s.row.value.token), None, now));
    if t.row.value.inFlight { HiddenAlong(t, es); }
  }

  // ---- The bound on alarm times is exact ----

  function Loaded(): State {
    State(None, [], false, None, [], None, {}, 0, {})
  }

  /** `setAlarm(t)` stores the truncated time, and `getAlarm()` discards a row whose time is not
      positive: an alarm set at `0 < t < 1` is accepted, indexed, and then lost. */
  lemma SetThenGetKeepsAlarmIff(time: real, uuid: string)
    requires time > 0.0 && IsUuid(uuid)
    ensures var t := Run(Loaded(), [SetAlarm(time, uuid), Apply, Succeed, GetAlarm, Apply, Succeed]);
      && Init(Loaded()) && t.queue == [] && t.index == Some(uuid)
      && (LiveToken(t.row) == t.index <==> time >= 1.0)
  {
    UuidIsNotFence(uuid);
    var s1 := Step(Loaded(), SetAlarm(time, uuid));
    var s2 := Step(s1, Apply);
    var s3 := Step(s2, Succeed);
    var s4 := Step(s3, GetAlarm);
    var s5 := Step(s4, Apply);
    var s6 := Step(s5, Succeed);
    assert Run(s6, []) == s6;
    assert Run(s5, [Succeed]) == s6;
    assert Run(s4, [Apply, Succeed]) == s6;
    assert Run(s3, [GetAlarm, Apply, Succeed]) == s6;
    assert Run(s2, [Succeed, GetAlarm, Apply, Succeed]) == s6;
    assert Run(s1, [Apply, Succeed, GetAlarm, Apply, Succeed]) == s6;
  }

  // ---- What the steps achieve ----

  lemma {:induction false} RunAppend(s: State, es: seq<Event>, e: Event)
    ensures Run(s, es + [e]) == Step(Run(s, es), e)
    decreases |es|
  {
    if es == [] {
      assert Run(s, [e]) == Run(Step(s, e), []);
    } else {
      assert (es + [e])[1..] == es[1..] + [e];
      RunAppend(Step(s, es[0]), es[1..], e);
    }
  }

  /** Effective alarm calls with ids of their own. */
  predicate Calls(s: State, calls: seq<Event>) {
    && (forall i :: 0 <= i < |calls| ==> (calls[i].SetAlarm? && calls[i].time > 0.0) || calls[i].DeleteAlarm?)
    && (forall i :: 0 <= i < |calls| ==> Fresh(s, calls[i].uuid))
    && (forall i, j :: 0 <= i < j < |calls| ==> calls[i].uuid != calls[j].uuid)
  }

  /** What a call asks of the backend when it is made in a transaction that began at `s`. */
  function Asks(s: State, call: Event): Mutation
    requires call.SetAlarm? || call.DeleteAlarm?
  {
    if call.SetAlarm? then SetIndex(call.uuid)
    else if s.row.None? then Skip
    else
      var token := Lineage(s.row.value.token);
      DeleteIndex(token, DeleteFence(call.uuid, token), s.row.value)
  }

  function Effects(s: State, calls: seq<Event>): seq<Mutation>
    requires Calls(s, calls)
  {
    seq(|calls|, i requires 0 <= i < |calls| => Asks(s, calls[i]))
  }

  predicate Quiescent(s: State) {
    && s.active.None? && s.frames == []
    && (forall i :: 0 <= i < |s.queue| ==> s.queue[i].Held? ==>
          s.queue[i].tx < s.nextId && s.queue[i].outcome != Undecided)
  }

  /** Inside the callback: everything queued before, then one reservation with the effects so far. */
  predicate InCallback(s: State, t: State, fx: seq<Mutation>, used: set<string>) {
    && t.frames == [Frame(s.nextId, s.row, false, false)] && t.active == Some(s.nextId)
    && t.queue == s.queue + (if fx == [] then [] else [Held(s.nextId, fx, Undecided)])
    && t.index == s.index && t.applied == s.applied && t.finishing == s.finishing && t.used == used
  }

  lemma Collected(s: State, t: State, fx: seq<Mutation>, used: set<string>, m: Mutation)
    requires Quiescent(s) && InCallback(s, t, fx, used)
    ensures ScopeOf(t) == InTransaction && Enqueue(t, m) == s.queue + [Held(s.nextId, fx + [m], Undecided)]
  {
    var n, q := |s.queue|, t.queue;
    if fx != [] {
      assert q[n] == Held(s.nextId, fx, Undecided) && Reserved(q, s.nextId);
      assert forall i :: 0 <= i < n ==> q[i] == s.queue[i] && WithEffect(q[i], s.nextId, m) == q[i];
      assert Enqueue(t, m) == s.queue + [WithEffect(q[n], s.nextId, m)];
    } else {
      assert q == s.queue && !Reserved(q, s.nextId) && fx + [m] == [m];
    }
  }

  lemma CallCollects(s: State, t: State, fx: seq<Mutation>, used: set<string>, call: Event)
    requires (call.SetAlarm? && call.time > 0.0) || call.DeleteAlarm?
    requires Quiescent(s) && InCallback(s, t, fx, used) && Fresh(t, call.uuid)
    ensures InCallback(s, Step(t, call), fx + [Asks(s, call)], used + {call.uuid})
    ensures call.SetAlarm? ==> Step(t, call).row == Some(Row(call.time.Floor, 0, false, call.uuid))
    ensures call.DeleteAlarm? ==> (Step(t, call).row.Some? ==> IsDeleteFence(Step(t, call).row.value.token))
  {
    Collected(s, t, fx, used, Asks(s, call));
    if call.DeleteAlarm? && s.row.Some? { LineageUndoesFence(call.uuid, Lineage(s.row.value.token)); }
  }

  function Ids(calls: seq<Event>): set<string>
    requires forall i :: 0 <= i < |calls| ==> calls[i].SetAlarm? || calls[i].DeleteAlarm?
  {
    set i | 0 <= i < |calls| :: calls[i].uuid
  }

  lemma CallsSplit(s: State, calls: seq<Event>)
    requires Calls(s, calls) && calls != []
    ensures var init, last := calls[..|calls| - 1], Last(calls);
      && calls == init + [last] && Calls(s, init)
      && Ids(calls) == Ids(init) + {last.uuid} && last.uuid !in s.used + Ids(init) && IsUuid(last.uuid)
      && Effects(s, calls) == Effects(s, init) + [Asks(s, last)]
  {
    var n := |calls| - 1;
    assert Fresh(s, calls[n].uuid);
    assert forall i :: 0 <= i < n ==> calls[..n][i] == calls[i];
    assert calls[n].uuid in Ids(calls);
    forall u | u in Ids(calls) ensures u in Ids(calls[..n]) + {calls[n].uuid} {
      var i :| 0 <= i < |calls| && calls[i].uuid == u;
      assert i < n ==> calls[..n][i].uuid == u;
    }
  }

  /** The callback so far: what it collected, and the row its last call left. */
  predicate Collecting(s: State, calls: seq<Event>)
    requires Calls(s, calls)
  {
    var t := Run(BeginStep(s), calls);
    && InCallback(s, t, Effects(s, calls), s.used + Ids(calls))
    && (calls != [] && Last(calls).SetAlarm? ==>
          t.row == Some(Row(Last(calls).time.Floor, 0, false, Last(calls).uuid)))
    && (calls != [] && Last(calls).DeleteAlarm? ==> LiveToken(t.row) == None)
  }

  lemma NoCallCollects(s: State)
    requires Quiescent(s) && Calls(s, [])
    ensures Collecting(s, [])
  {
  }

  lemma LastCallCollects(s: State, init: seq<Event>, last: Event)
    requires Quiescent(s) && Calls(s, init + [last]) && Calls(s, init) && Collecting(s, init)
    ensures Collecting(s, init + [last])
  {
    hide Step, Quiescent;
    var calls := init + [last];
    CallsSplit(s, calls);
    assert calls[|init|] == last;
    assert calls[..|calls| - 1] == init;
    RunAppend(BeginStep(s), init, last);
    CallCollects(s, Run(BeginStep(s), init), Effects(s, init), s.used + Ids(init), last);
    assert s.used + Ids(init) + {last.uuid} == s.used + Ids(calls);
  }

  lemma {:induction false} CallsCollect(s: State, calls: seq<Event>)
    requires Quiescent(s) && Calls(s, calls)
    ensures Collecting(s, calls)
    decreases |calls|
  {
    if calls == [] {
      NoCallCollects(s);
    } else {
      CallsSplit(s, calls);
      CallsCollect(s, calls[..|calls| - 1]);
      LastCallCollects(s, calls[..|calls| - 1], Last(calls));
    }
  }

  /** The callback has returned. */
  function Called(s: State, calls: seq<Event>): State {
    EndCallbackStep(Run(BeginStep(s), calls))
  }

  lemma CalledShape(s: State, calls: seq<Event>)
    requires Quiescent(s) && Calls(s, calls) && calls != []
    ensures var t := Called(s, calls);
      && t.frames == [Frame(s.nextId, s.row, true, false)] && t.active == Some(s.nextId)
      && t.queue == s.queue + [Held(s.nextId, Effects(s, calls), Undecided)]
      && t.row == Run(BeginStep(s), calls).row && t.index == s.index && t.finishing == s.finishing
  {
    CallsCollect(s, calls);
    assert Effects(s, calls)[0] == Asks(s, calls[0]);
  }

  /** However many calls a transaction makes, a commit sends the backend one, the last, behind everything queued
      before, and leaves the row as that call left it; an abort sends none and puts the row back. */
  lemma TransactionRunsOnlyItsLastEffect(s: State, calls: seq<Event>)
    requires Quiescent(s) && s.nextId !in s.finishing && Calls(s, calls) && calls != []
    ensures var t, last := Called(s, calls), Last(calls);
      var committed, aborted := Step(Step(t, Commit), Settle(s.nextId)), Step(Step(t, Abort), Settle(s.nextId));
      && committed.queue == s.queue + [Ready(Asks(s, last))] && aborted.queue == s.queue + [Ready(Skip)]
      && LiveToken(committed.row) ==
           (if last.SetAlarm? then LiveToken(Some(Row(last.time.Floor, 0, false, last.uuid))) else None)
      && aborted.row == s.row && committed.active.None? && aborted.active.None?
      && committed.index == s.index && aborted.index == s.index
  {
    hide BeginStep, EndCallbackStep, FinishStep, SettleStep, Run, InCallback, Effects, Ids;
    CallsCollect(s, calls);
    CalledShape(s, calls);
    SettlesAs(s, calls, true);
    SettlesAs(s, calls, false);
  }

  lemma SettlesAs(s: State, calls: seq<Event>, commit: bool)
    requires Quiescent(s) && s.nextId !in s.finishing && Calls(s, calls) && calls != []
    ensures var t := Called(s, calls);
      var u := SettleStep(FinishStep(t, commit), s.nextId);
      && u.queue == s.queue + [Ready(if commit then Asks(s, Last(calls)) else Skip)]
      && u.row == (if commit then t.row else s.row) && u.active.None? && u.index == s.index
  {
    CalledShape(s, calls);
    var t := Called(s, calls);
    var fx := Effects(s, calls);
    assert Last(fx) == Asks(s, Last(calls));
    var f := FinishStep(t, commit);
    assert f.queue == s.queue + [Held(s.nextId, fx, if commit then Committed else Discarded)];
    assert s.nextId in f.finishing && f.frames == [];
  }
}
