/** What every run of the alarm shim keeps. */
module AlarmProofs {
  import opened Prelude
  import opened AlarmTokens
  import opened AlarmProtocol

  // ---- Structure: holds on every run, whatever the backend answers ----

  predicate FramesOk(s: State) {
    && (s.active.None? ==> s.frames == [])
    && (s.active.Some? ==> Innermost(s) || s.active.value in s.finishing)
    && (forall i :: 0 <= i < |s.frames| ==> s.frames[i].id < s.nextId && s.frames[i].id !in s.finishing)
    && (forall i :: 0 <= i < |s.frames| - 1 ==> !s.frames[i].closed && !s.frames[i].rolledBack)
    && (forall i, j :: 0 <= i < j < |s.frames| ==> s.frames[i].id != s.frames[j].id)
    && (s.frames != [] && !Innermost(s) ==> !Last(s.frames).closed && !Last(s.frames).rolledBack)
    && (forall id :: id in s.finishing ==> id < s.nextId)
  }

  predicate EntryOk(s: State, i: int, e: Entry) {
    e.Held? ==>
      if e.outcome == Undecided then
        && i == |s.queue| - 1
        && s.frames != [] && e.tx == s.frames[0].id
        && (e.effects == [] <==> s.frames[0].rolledBack)
      else e.tx in s.finishing
  }

  predicate QueueOk(s: State) {
    && (s.applied ==> s.queue != [] && s.queue[0].Ready?)
    && (forall i :: 0 <= i < |s.queue| ==> EntryOk(s, i, s.queue[i]))
  }

  predicate Structure(s: State) {
    FramesOk(s) && QueueOk(s)
  }

  lemma EnqueueKept(s: State, m: Mutation, t: State)
    requires Structure(s) && ScopeOf(s) != Refused
    requires t == s.(queue := Enqueue(s, m), row := t.row, used := t.used)
    ensures Structure(t)
  {}

  lemma FinishKept(s: State, commit: bool)
    requires Structure(s)
    ensures Structure(FinishStep(s, commit))
  {
    if s.frames != [] { assert s.frames[|s.frames| - 1] == Last(s.frames); }
  }

  lemma SettleKept(s: State, id: nat)
    requires Structure(s)
    ensures Structure(SettleStep(s, id))
  {}

  lemma RollbackKept(s: State)
    requires Structure(s)
    ensures Structure(RollbackStep(s))
  {}

  predicate IsCall(e: Event) {
    e.SetAlarm? || e.DeleteAlarm? || e.GetAlarm?
  }

  lemma StructureCall(s: State, e: Event)
    requires Structure(s) && IsCall(e)
    ensures Structure(Step(s, e))
  {
    var t := Step(s, e);
    match e
    case SetAlarm(_, uuid) => if t != s { EnqueueKept(s, SetIndex(uuid), t); }
    case DeleteAlarm(uuid) => if t != s { EnqueueKept(s, DeleteMutation(s, uuid), t); }
    case GetAlarm => if t.queue != s.queue { EnqueueKept(s, Repair(s.row.value.token), t); }
  }

  lemma StructureBegin(s: State)
    requires Structure(s)
    ensures Structure(BeginStep(s))
  {
  }

  lemma StructureEndCallback(s: State)
    requires Structure(s)
    ensures Structure(EndCallbackStep(s))
  {
  }

  lemma StructureRow(s: State, e: Event)
    requires Structure(s) && (e.Claim? || e.Complete? || e.Apply?)
    ensures Structure(Step(s, e))
  {
  }

  lemma StructureAnswers(s: State, e: Event)
    requires Structure(s) && (e.Succeed? || e.Fail?)
    ensures Structure(Step(s, e))
  {
  }

  lemma StructureKept(s: State, e: Event)
    requires Structure(s)
    ensures Structure(Step(s, e))
  {
    if IsCall(e) { StructureCall(s, e); }
    else if e.Begin? { StructureBegin(s); }
    else if e.EndCallback? { StructureEndCallback(s); }
    else {
      match e
      case Commit => FinishKept(s, true);
      case Abort => FinishKept(s, false);
      case Settle(id) => SettleKept(s, id);
      case Rollback => RollbackKept(s);
      case Succeed => StructureAnswers(s, e);
      case Fail => StructureAnswers(s, e);
      case _ => StructureRow(s, e);
    }
  }

  // ---- Tokens: every token around was built from ids already handed out ----

  predicate FenceOver(t: string, token: string, used: set<string>) {
    exists u :: u in used && IsUuid(u) && t == DeleteFence(u, token)
  }

  predicate LiveTokenOk(t: string, used: set<string>) {
    IsUuid(t) && t in used
  }

  predicate TokenOk(t: string, used: set<string>) {
    LiveTokenOk(Lineage(t), used) && (IsDeleteFence(t) ==> FenceOver(t, Lineage(t), used))
  }

  predicate RowOk(row: Option<Row>, used: set<string>) {
    row.Some? ==> TokenOk(row.value.token, used)
  }

  predicate MutationOk(m: Mutation, used: set<string>) {
    match m
    case SetIndex(t) => LiveTokenOk(t, used)
    case Repair(t) => LiveTokenOk(t, used)
    case DeleteIndex(t, fence, saved) =>
      && LiveTokenOk(t, used) && FenceOver(fence, t, used)
      && TokenOk(saved.token, used) && Lineage(saved.token) == t
    case Skip => true
  }

  predicate EntryTokensOk(e: Entry, used: set<string>) {
    match e
    case Ready(m) => MutationOk(m, used)
    case Held(_, effects, _) => forall k :: 0 <= k < |effects| ==> MutationOk(effects[k], used)
  }

  predicate Tokens(s: State) {
    && RowOk(s.row, s.used)
    && (forall i :: 0 <= i < |s.frames| ==> RowOk(s.frames[i].savepoint, s.used))
    && (forall i :: 0 <= i < |s.queue| ==> EntryTokensOk(s.queue[i], s.used))
  }

  lemma TokensGrow(s: State, t: State)
    requires Tokens(s) && s.used <= t.used
    requires t.queue == s.queue && t.frames == s.frames && t.row == s.row
    ensures Tokens(t)
  {}

  lemma FenceTokenOk(u: string, token: string, used: set<string>)
    requires IsUuid(u) && u in used && LiveTokenOk(token, used)
    ensures FenceOver(DeleteFence(u, token), token, used)
    ensures TokenOk(DeleteFence(u, token), used) && Lineage(DeleteFence(u, token)) == token
    ensures IsDeleteFence(DeleteFence(u, token))
  {
    LineageUndoesFence(u, token);
  }

  lemma TokensEnqueue(s: State, m: Mutation, t: State)
    requires Tokens(s) && ScopeOf(s) != Refused && s.used <= t.used
    requires MutationOk(m, t.used) && RowOk(t.row, t.used)
    requires t == s.(queue := Enqueue(s, m), row := t.row, used := t.used)
    ensures Tokens(t)
  {
    TokensGrow(s, s.(used := t.used));
  }

  lemma TokensFinish(s: State, commit: bool)
    requires Tokens(s)
    ensures Tokens(FinishStep(s, commit))
  {
    if s.frames != [] { assert s.frames[|s.frames| - 1] == Last(s.frames); }
  }

  lemma TokensSettle(s: State, id: nat)
    requires Tokens(s)
    ensures Tokens(SettleStep(s, id))
  {}

  lemma TokensRollback(s: State)
    requires Tokens(s)
    ensures Tokens(RollbackStep(s))
  {
    if s.frames != [] { assert s.frames[|s.frames| - 1] == Last(s.frames); }
  }

  lemma TokensCall(s: State, e: Event)
    requires Tokens(s) && (e.SetAlarm? || e.DeleteAlarm? || e.GetAlarm?)
    ensures Tokens(Step(s, e))
  {
    var t := Step(s, e);
    if t != s {
      match e
      case SetAlarm(_, uuid) =>
        UuidIsNotFence(uuid);
        TokensEnqueue(s, SetIndex(uuid), t);
      case DeleteAlarm(uuid) =>
        if DeleteTarget(s).Some? {
          FenceTokenOk(uuid, Lineage(DeleteTarget(s).value.token), t.used);
        }
        TokensEnqueue(s, DeleteMutation(s, uuid), t);
      case GetAlarm =>
        if t.queue != s.queue { TokensEnqueue(s, Repair(s.row.value.token), t); }
    }
  }

  lemma TokensKept(s: State, e: Event)
    requires Tokens(s)
    ensures Tokens(Step(s, e))
  {
    match e
    case SetAlarm(_, _) => TokensCall(s, e);
    case DeleteAlarm(_) => TokensCall(s, e);
    case GetAlarm => TokensCall(s, e);
    case Commit => TokensFinish(s, true);
    case Abort => TokensFinish(s, false);
    case Settle(id) => TokensSettle(s, id);
    case Rollback => TokensRollback(s);
    case _ =>
  }

  // ---- The mirror: draining the queue always leads the backend to the local row ----

  /** The token of a row that is not a tombstone. */
  function LiveToken(row: Option<Row>): Option<string> {
    if row.Some? && !IsDeleteFence(row.value.token) then Some(row.value.token) else None
  }

  /** The backend call an entry will make, an undecided transaction counting as rolled back if
      `rolled` and as committed otherwise. */
  function Effect(e: Entry, rolled: bool): Mutation {
    match e
    case Ready(m) => m
    case Held(_, _, outcome) => if rolled && outcome == Undecided then Skip else Resolve(e)
  }

  function Drain(index: Option<string>, queue: seq<Entry>, rolled: bool): Option<string>
    decreases |queue|
  {
    if queue == [] then index
    else Drain(ApplyTo(index, Effect(queue[0], rolled)), queue[1..], rolled)
  }

  function Rest(s: State): seq<Entry> {
    if s.applied && s.queue != [] then s.queue[1..] else s.queue
  }

  /** Where the backend's index is headed. */
  function Target(s: State, rolled: bool): Option<string> {
    Drain(s.index, Rest(s), rolled)
  }

  lemma {:induction false} DrainAppend(index: Option<string>, queue: seq<Entry>, e: Entry, rolled: bool)
    ensures Drain(index, queue + [e], rolled) == ApplyTo(Drain(index, queue, rolled), Effect(e, rolled))
    decreases |queue|
  {
    if queue != [] {
      assert (queue + [e])[1..] == queue[1..] + [e];
      DrainAppend(ApplyTo(index, Effect(queue[0], rolled)), queue[1..], e, rolled);
    } else {
      assert (queue + [e])[1..] == [];
    }
  }

  /** Entries that make the same calls drain alike. */
  lemma {:induction false} DrainCong(index: Option<string>, q1: seq<Entry>, r1: bool, q2: seq<Entry>, r2: bool)
    requires |q1| == |q2|
    requires forall i :: 0 <= i < |q1| ==> Effect(q1[i], r1) == Effect(q2[i], r2)
    ensures Drain(index, q1, r1) == Drain(index, q2, r2)
    decreases |q1|
  {
    if q1 != [] {
      DrainCong(ApplyTo(index, Effect(q1[0], r1)), q1[1..], r1, q2[1..], r2);
    }
  }

  /** The alarm a runnable entry's completion removes from the row. */
  function KillTarget(e: Entry): Option<string> {
    if (e.Ready? || e.outcome != Undecided) && Effect(e, false).DeleteIndex?
    then Some(Effect(e, false).token) else None
  }

  predicate Spares(e: Entry, row: Option<Row>) {
    KillTarget(e).Some? ==> LiveToken(row) != KillTarget(e)
  }

  predicate ReadableRow(row: Option<Row>) {
    LiveToken(row).Some? ==> ValidFields(row.value)
  }

  /** Every row the object may still end up with is where the backend is headed in that case. */
  predicate Heading(s: State) {
    && Target(s, false) == LiveToken(s.row)
    && (s.frames != [] && !s.frames[0].rolledBack ==> Target(s, true) == LiveToken(s.frames[0].savepoint))
    && (forall k :: 1 <= k < |s.frames| && !s.frames[k].rolledBack ==>
          Target(s, false) == LiveToken(s.frames[k].savepoint))
  }

  predicate Readable(s: State) {
    && ReadableRow(s.row)
    && (forall k :: 0 <= k < |s.frames| ==> ReadableRow(s.frames[k].savepoint))
  }

  /** No queued delete is aimed at an alarm that is, or may again become, the live row. */
  predicate Sparing(s: State) {
    && (forall i :: 0 <= i < |s.queue| ==> Spares(s.queue[i], s.row))
    && (forall i, k :: 0 <= i < |s.queue| && 0 <= k < |s.frames| && !s.frames[k].rolledBack ==>
          Spares(s.queue[i], s.frames[k].savepoint))
  }

  predicate Mirror(s: State) {
    Structure(s) && Tokens(s) && Heading(s) && Readable(s) && Sparing(s)
  }

  /** Runs in which no backend call fails, no alarm fires, and alarm times are at least 1. */
  predicate Clean(e: Event) {
    !e.Fail? && !e.Complete? && (e.SetAlarm? ==> e.time <= 0.0 || e.time >= 1.0)
  }

  lemma NoUndecided(s: State)
    requires Structure(s) && s.frames == []
    ensures Target(s, true) == Target(s, false)
  {
    DrainCong(s.index, Rest(s), true, Rest(s), false);
  }

  /** Outside a transaction a call's effect lands after everything queued. */
  lemma TargetOutside(s: State, m: Mutation, t: State)
    requires Structure(s) && ScopeOf(s) == Outside
    requires t.queue == s.queue + [Ready(m)] && t.applied == s.applied && t.index == s.index
    ensures Target(t, false) == ApplyTo(Target(s, false), m)
  {
    assert Rest(t) == Rest(s) + [Ready(m)];
    DrainAppend(s.index, Rest(s), Ready(m), false);
  }

  /** The open reservation is the last queue entry, and it is found by its transaction. */
  lemma ReservationIsLast(s: State, m: Mutation)
    requires Structure(s) && ScopeOf(s) == InTransaction
    ensures Reserved(s.queue, s.frames[0].id) <==>
      s.queue != [] && Last(s.queue).Held? && Last(s.queue).outcome == Undecided
    ensures Reserved(s.queue, s.frames[0].id) ==>
      && Last(s.queue).tx == s.frames[0].id
      && Enqueue(s, m) == s.queue[..|s.queue| - 1] + [WithEffect(Last(s.queue), s.frames[0].id, m)]
    ensures forall i :: 0 <= i < |s.queue| - 1 ==> s.queue[i].Held? ==> s.queue[i].outcome != Undecided
  {
    var q, n, tx := s.queue, |s.queue|, s.frames[0].id;
    if n > 0 { assert q[n - 1] == Last(q); }
    if Reserved(q, tx) {
      var k :| 0 <= k < n && q[k].Held? && q[k].tx == tx;
      assert k == n - 1;
      assert Enqueue(s, m) == q[..n - 1] + [WithEffect(Last(q), tx, m)];
    }
  }

  lemma TargetUnreserved(s: State, m: Mutation, t: State)
    requires Structure(s) && ScopeOf(s) == InTransaction && !Reserved(s.queue, s.frames[0].id)
    requires t.queue == Enqueue(s, m) && t.applied == s.applied && t.index == s.index
    ensures Target(t, false) == ApplyTo(Target(s, true), m)
    ensures Target(t, true) == Target(s, true)
  {
    ReservationIsLast(s, m);
    var h := Held(s.frames[0].id, [m], Undecided);
    assert Rest(t) == Rest(s) + [h];
    DrainAppend(s.index, Rest(s), h, true);
    DrainAppend(s.index, Rest(s), h, false);
    DrainCong(s.index, Rest(s), true, Rest(s), false);
  }

  /** What is left to drain before the open reservation. */
  function BeforeLast(s: State): seq<Entry>
    requires s.queue != [] && (s.applied ==> |s.queue| > 1)
  {
    if s.applied then s.queue[1..|s.queue| - 1] else s.queue[..|s.queue| - 1]
  }

  lemma RestReserved(s: State, m: Mutation, t: State)
    requires Structure(s) && ScopeOf(s) == InTransaction && Reserved(s.queue, s.frames[0].id)
    requires t.queue == Enqueue(s, m) && t.applied == s.applied
    ensures s.queue != [] && (s.applied ==> |s.queue| > 1)
    ensures Last(s.queue).Held? && Last(s.queue).outcome == Undecided && Last(s.queue).tx == s.frames[0].id
    ensures Rest(s) == BeforeLast(s) + [Last(s.queue)]
    ensures Rest(t) == BeforeLast(s) + [WithEffect(Last(s.queue), s.frames[0].id, m)]
    ensures forall i :: 0 <= i < |BeforeLast(s)| ==> BeforeLast(s)[i].Held? ==> BeforeLast(s)[i].outcome != Undecided
  {
    ReservationIsLast(s, m);
  }

  lemma TargetReserved(s: State, m: Mutation, t: State)
    requires Structure(s) && ScopeOf(s) == InTransaction && Reserved(s.queue, s.frames[0].id)
    requires t.queue == Enqueue(s, m) && t.applied == s.applied && t.index == s.index
    ensures Target(t, false) == ApplyTo(Target(s, true), m)
    ensures Target(t, true) == Target(s, true)
  {
    RestReserved(s, m, t);
    var before, h := BeforeLast(s), WithEffect(Last(s.queue), s.frames[0].id, m);
    DrainAppend(s.index, before, h, true);
    DrainAppend(s.index, before, h, false);
    DrainAppend(s.index, before, Last(s.queue), true);
    DrainCong(s.index, before, true, before, false);
  }

  /** Inside a transaction a call's effect replaces whatever the transaction would have done. */
  lemma TargetInside(s: State, m: Mutation, t: State)
    requires Structure(s) && ScopeOf(s) == InTransaction
    requires t.queue == Enqueue(s, m) && t.applied == s.applied && t.index == s.index
    ensures Target(t, false) == ApplyTo(Target(s, true), m)
    ensures Target(t, true) == Target(s, true)
  {
    if Reserved(s.queue, s.frames[0].id) { TargetReserved(s, m, t); } else { TargetUnreserved(s, m, t); }
  }

  lemma HeadingCall(s: State, m: Mutation, t: State)
    requires Structure(s) && Heading(s) && ScopeOf(s) != Refused
    requires t == s.(queue := Enqueue(s, m), row := t.row, used := t.used)
    requires LiveToken(t.row) ==
      ApplyTo(LiveToken(if ScopeOf(s) == Outside then s.row else s.frames[0].savepoint), m)
    ensures Heading(t)
  {
    if ScopeOf(s) == Outside { TargetOutside(s, m, t); } else { TargetInside(s, m, t); }
  }

  lemma HeadingRollback(s: State)
    requires Structure(s) && Heading(s)
    ensures Heading(RollbackStep(s))
  {
    var t := RollbackStep(s);
    if t != s {
      var n := |s.frames|;
      assert Last(s.frames) == s.frames[n - 1];
      DrainCong(s.index, Rest(t), false, Rest(s), n == 1);
      if n > 1 { DrainCong(s.index, Rest(t), true, Rest(s), true); }
    }
  }

  lemma HeadingFinish(s: State, commit: bool)
    requires Structure(s) && Heading(s)
    ensures Heading(FinishStep(s, commit))
  {
    var t := FinishStep(s, commit);
    if t != s {
      var n := |s.frames|;
      assert Last(s.frames) == s.frames[n - 1];
      if n > 1 { assert t.queue == s.queue; }
      else { DrainCong(s.index, Rest(t), false, Rest(s), !commit && !s.frames[0].rolledBack); }
    }
  }

  lemma HeadingSettle(s: State, id: nat)
    requires Structure(s) && Heading(s)
    ensures Heading(SettleStep(s, id))
  {
    var t := SettleStep(s, id);
    if t != s {
      DrainCong(s.index, Rest(t), false, Rest(s), false);
      DrainCong(s.index, Rest(t), true, Rest(s), true);
    }
  }

  lemma HeadingSucceed(s: State)
    requires Structure(s) && Heading(s) && Sparing(s)
    ensures Heading(SucceedStep(s))
    ensures LiveToken(SucceedStep(s).row) == LiveToken(s.row)
  {
    if s.queue != [] { assert Spares(s.queue[0], s.row); }
  }

  lemma HeadingCalls(s: State, e: Event)
    requires Mirror(s) && Clean(e) && IsCall(e)
    ensures Heading(Step(s, e))
  {
    var t := Step(s, e);
    match e
    case SetAlarm(_, uuid) => if t != s { UuidIsNotFence(uuid); HeadingCall(s, SetIndex(uuid), t); }
    case DeleteAlarm(uuid) =>
      if t != s {
        var m := DeleteMutation(s, uuid);
        if m.DeleteIndex? { LineageUndoesFence(uuid, m.token); }
        HeadingCall(s, m, t);
      }
    case GetAlarm => if t != s { HeadingCall(s, Repair(s.row.value.token), t); }
  }

  lemma HeadingQuiet(s: State, e: Event)
    requires Mirror(s) && Clean(e) && (e.Begin? || e.EndCallback? || e.Claim? || e.Apply?)
    ensures Heading(Step(s, e))
  {
    hide Tokens, Sparing;
    if e.Begin? && s.frames == [] { NoUndecided(s); }
  }

  lemma HeadingKept(s: State, e: Event)
    requires Mirror(s) && Clean(e)
    ensures Heading(Step(s, e))
  {
    hide Structure, Tokens, Heading, Readable, Sparing;
    if IsCall(e) { HeadingCalls(s, e); }
    else {
      match e
      case Rollback => HeadingRollback(s);
      case Commit => HeadingFinish(s, true);
      case Abort => HeadingFinish(s, false);
      case Settle(id) => HeadingSettle(s, id);
      case Succeed => HeadingSucceed(s);
      case _ => HeadingQuiet(s, e);
    }
  }

  /** A transaction whose last effect deletes an alarm does not leave that alarm in the row. */
  lemma LastEffectDecides(s: State)
    requires Structure(s) && Heading(s) && s.queue != [] && Last(s.queue).Held?
    requires Effect(Last(s.queue), false).DeleteIndex?
    ensures LiveToken(s.row) != Some(Effect(Last(s.queue), false).token)
  {
    hide FramesOk, Drain;
    var q, n := s.queue, |s.queue|;
    var base := if s.applied then q[1..n - 1] else q[..n - 1];
    assert Rest(s) == base + [Last(q)];
    DrainAppend(s.index, base, Last(q), false);
  }

  lemma SparingCall(s: State, m: Mutation, t: State)
    requires Structure(s) && Sparing(s) && ScopeOf(s) != Refused
    requires t == s.(queue := Enqueue(s, m), row := t.row, used := t.used)
    requires forall i :: 0 <= i < |s.queue| ==> Spares(s.queue[i], t.row)
    requires m.DeleteIndex? ==> LiveToken(t.row) == None
    ensures Sparing(t)
  {
    if ScopeOf(s) == InTransaction { ReservationIsLast(s, m); }
  }

  lemma SparingFinish(s: State, commit: bool)
    requires Mirror(s)
    ensures Sparing(FinishStep(s, commit))
  {
    var t := FinishStep(s, commit);
    if t != s {
      var n := |s.frames|;
      assert Last(s.frames) == s.frames[n - 1];
      if n > 1 { assert t.queue == s.queue; }
      forall i | 0 <= i < |t.queue| ensures Spares(t.queue[i], t.row) {
        assert Spares(s.queue[i], s.row) && Spares(s.queue[i], t.row);
        if s.queue[i].Held? && s.queue[i].outcome == Undecided && Effect(s.queue[i], false).DeleteIndex? {
          assert s.queue[i] == Last(s.queue);
          LastEffectDecides(s);
        }
      }
    }
  }

  /** A fresh alarm is not the target of anything queued. */
  lemma FreshIsSpared(s: State, uuid: string, row: Option<Row>)
    requires Tokens(s) && Fresh(s, uuid) && row.Some? && row.value.token == uuid
    ensures forall i :: 0 <= i < |s.queue| ==> Spares(s.queue[i], row)
  {
    forall i | 0 <= i < |s.queue| ensures Spares(s.queue[i], row) {
      assert EntryTokensOk(s.queue[i], s.used);
    }
  }

  lemma SparingSettle(s: State, id: nat)
    requires Structure(s) && Sparing(s)
    ensures Sparing(SettleStep(s, id))
  {}

  lemma SparingRollback(s: State)
    requires Structure(s) && Sparing(s)
    ensures Sparing(RollbackStep(s))
  {
    if s.frames != [] { assert Last(s.frames) == s.frames[|s.frames| - 1]; }
  }

  lemma SparingCalls(s: State, e: Event)
    requires Mirror(s) && Clean(e) && IsCall(e)
    ensures Sparing(Step(s, e))
  {
    var t := Step(s, e);
    match e
    case SetAlarm(_, uuid) =>
      if t != s { FreshIsSpared(s, uuid, t.row); SparingCall(s, SetIndex(uuid), t); }
    case DeleteAlarm(uuid) =>
      if t != s {
        var m := DeleteMutation(s, uuid);
        if m.DeleteIndex? { LineageUndoesFence(uuid, m.token); }
        SparingCall(s, m, t);
      }
    case GetAlarm => if t != s { SparingCall(s, Repair(s.row.value.token), t); }
  }

  lemma SparingQuiet(s: State, e: Event)
    requires Mirror(s) && Clean(e) && (e.Begin? || e.EndCallback? || e.Claim? || e.Apply?)
    ensures Sparing(Step(s, e))
  {
    hide Structure, Tokens, Heading;
  }

  lemma SparingSucceed(s: State)
    requires Mirror(s)
    ensures Sparing(SucceedStep(s))
  {
    HeadingSucceed(s);
  }

  lemma SparingKept(s: State, e: Event)
    requires Mirror(s) && Clean(e)
    ensures Sparing(Step(s, e))
  {
    if IsCall(e) { SparingCalls(s, e); }
    else if e.Begin? || e.EndCallback? || e.Claim? || e.Apply? { SparingQuiet(s, e); }
    else {
      match e
      case Commit => SparingFinish(s, true);
      case Abort => SparingFinish(s, false);
      case Rollback => SparingRollback(s);
      case Settle(id) => SparingSettle(s, id);
      case Succeed => SparingSucceed(s);
      case _ =>
    }
  }

  lemma MirrorKept(s: State, e: Event)
    requires Mirror(s) && Clean(e)
    ensures Mirror(Step(s, e))
  {
    StructureKept(s, e);
    TokensKept(s, e);
    HeadingKept(s, e);
    SparingKept(s, e);
    ReadableKept(s, e);
  }

  lemma ReadableKept(s: State, e: Event)
    requires Readable(s) && Clean(e)
    ensures Readable(Step(s, e))
  {
    var t := Step(s, e);
    if s.frames != [] { assert Last(s.frames) == s.frames[|s.frames| - 1]; }
    match e
    case DeleteAlarm(uuid) =>
      if t != s {
        var m := DeleteMutation(s, uuid);
        if m.DeleteIndex? { LineageUndoesFence(uuid, m.token); }
      }
    case _ =>
  }
}
