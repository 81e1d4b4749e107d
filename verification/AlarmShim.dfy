/** The alarm shim itself: the object's row, queue and transaction context updated in place. Every method is one
    await-free stretch of the source, refines the step of the same name and keeps the shim's invariant: while
    nothing failed or fired, draining the queue leads the backend to the row. */
module AlarmShim {
  import opened Prelude
  import opened AlarmTokens
  import opened AlarmProtocol
  import opened AlarmProofs
  import opened AlarmTheorems

  /** What the invariant says for a caller: the backend is headed for the row, which is readable. */
  predicate Heads(s: State) {
    Target(s, false) == LiveToken(s.row) && ReadableRow(s.row) && (s.queue == [] ==> s.index == LiveToken(s.row))
  }

  lemma ShimKept(s: State, clean: bool, e: Event)
    requires Inv(s) && (clean ==> Mirror(s))
    ensures Inv(Step(s, e)) && (clean ==> Heads(s))
    ensures clean && Clean(e) ==> Mirror(Step(s, e)) && Heads(Step(s, e))
  {
    StructureKept(s, e);
    TokensKept(s, e);
    if clean && Clean(e) { MirrorKept(s, e); }
  }

  lemma ShimFinishKept(s: State, clean: bool, commit: bool)
    requires Inv(s) && (clean ==> Mirror(s))
    ensures Inv(FinishStep(s, commit)) && (clean ==> Heads(s))
    ensures clean ==> Mirror(FinishStep(s, commit)) && Heads(FinishStep(s, commit))
  {
    hide Inv, Mirror, FinishStep;
    ShimKept(s, clean, if commit then Commit else Abort);
  }

  /** What finishing does, given the decided queue. */
  lemma FinishIs(s: State, commit: bool, queue: seq<Entry>)
    requires s.frames != [] && Last(s.frames).closed && |queue| == |s.queue|
    requires var f := Last(s.frames);
      forall i :: 0 <= i < |queue| ==>
        queue[i] == Decided(s.queue[i], f.id, if commit && !f.rolledBack then Committed else Discarded)
    ensures var f := Last(s.frames);
      FinishStep(s, commit) == s.(
        row := if commit || f.rolledBack then s.row else f.savepoint,
        frames := s.frames[..|s.frames| - 1], finishing := s.finishing + {f.id}, queue := queue)
  {
    assert queue == FinishStep(s, commit).queue;
  }

  lemma FinishNeedsClosed(s: State, commit: bool)
    ensures s.frames == [] || !Last(s.frames).closed ==> FinishStep(s, commit) == s
  {
  }

  class Shim {
    var row: Option<Row>
    var queue: seq<Entry>
    var applied: bool
    var index: Option<string>
    var frames: seq<Frame>
    var active: Option<nat>
    var finishing: set<nat>
    var nextId: nat
    var used: set<string>
    ghost var clean: bool        // no backend call failed, no alarm fired, and no time was between 0 and 1

    ghost predicate Valid()
      reads this
    {
      Inv(View()) && (clean ==> Mirror(View()))
    }

    constructor ()
      ensures Valid() && clean && Init(View())
    {
      row, queue, applied, index, frames, active := None, [], false, None, [], None;
      finishing, nextId, used, clean := {}, 0, {}, true;
    }

    ghost function View(): State
      reads this
    {
      State(row, queue, applied, index, frames, active, finishing, nextId, used)
    }

    method ScopeNow() returns (scope: Scope)
      ensures scope == ScopeOf(View())
    {
      if active.None? { return Outside; }
      if |frames| == 1 && frames[0].id == active.value && !frames[0].closed && !frames[0].rolledBack {
        return InTransaction;
      }
      return Refused;
    }

    /** Queue a mutation, or hand it to the open transaction, reserving a queue slot on first use. */
    method EnqueueMutation(m: Mutation)
      requires ScopeOf(View()) != Refused
      modifies this`queue
      ensures queue == Enqueue(old(View()), m)
    {
      var scope := ScopeNow();
      if scope == Outside {
        queue := queue + [Ready(m)];
        return;
      }
      var tx, i, found := frames[0].id, 0, false;
      while i < |queue|
        modifies this`queue
        invariant 0 <= i <= |queue| == |old(queue)|
        invariant found <==> Reserved(old(queue)[..i], tx)
        invariant forall j :: 0 <= j < i ==> queue[j] == WithEffect(old(queue)[j], tx, m)
        invariant forall j :: i <= j < |queue| ==> queue[j] == old(queue)[j]
      {
        ghost var seen := old(queue)[..i + 1];
        assert seen == old(queue)[..i] + [old(queue)[i]];
        assert forall k :: 0 <= k < i ==> seen[k] == old(queue)[..i][k];
        assert seen[i] == old(queue)[i];
        if queue[i].Held? && queue[i].tx == tx {
          queue := queue[i := queue[i].(effects := queue[i].effects + [m])];
          found := true;
        }
        i := i + 1;
      }
      assert old(queue)[..i] == old(queue);
      if !found {
        assert forall j :: 0 <= j < |queue| ==> queue[j] == old(queue)[j];
        queue := queue + [Held(tx, [m], Undecided)];
      }
    }

    method SetStorageAlarm(time: real, uuid: string) returns (ok: bool)
      requires Valid() && Fresh(View(), uuid)
      modifies this
      ensures Valid() && View() == Step(old(View()), SetAlarm(time, uuid))
      ensures clean == (old(clean) && Clean(SetAlarm(time, uuid)))
      ensures ok ==> row == Some(Row(time.Floor, 0, false, uuid)) && (clean ==> Target(View(), false) == Some(uuid))
      ensures ok <==> time > 0.0 && ScopeOf(old(View())) != Refused
    {
      hide Inv, Mirror;
      ShimKept(View(), clean, SetAlarm(time, uuid));
      UuidIsNotFence(uuid);
      clean := clean && Clean(SetAlarm(time, uuid));
      var scope := ScopeNow();
      if scope == Refused || time <= 0.0 { return false; }
      row := Some(Row(time.Floor, 0, false, uuid));
      EnqueueMutation(SetIndex(uuid));
      used := used + {uuid};
      ok := true;
    }

    method DeleteStorageAlarm(uuid: string) returns (ok: bool)
      requires Valid() && Fresh(View(), uuid)
      modifies this
      ensures Valid() && View() == Step(old(View()), DeleteAlarm(uuid)) && clean == old(clean)
      ensures ok ==> LiveToken(row) == None && (clean ==> Target(View(), false) == None)
      ensures ok <==> ScopeOf(old(View())) != Refused
    {
      hide Inv, Mirror;
      ShimKept(View(), clean, DeleteAlarm(uuid));
      var scope := ScopeNow();
      if scope == Refused { return false; }
      var target := if scope == InTransaction then frames[0].savepoint else row;
      if target.Some? {
        var token := Lineage(target.value.token);
        var fence := DeleteFence(uuid, token);
        if row.Some? { row := Some(row.value.(token := fence, inFlight := true)); }
        EnqueueMutation(DeleteIndex(token, fence, target.value));
      } else {
        row := None;
        EnqueueMutation(Skip);
      }
      used := used + {uuid};
      ok := true;
    }

    method GetStorageAlarm() returns (scheduled: Option<int>)
      requires Valid()
      modifies this
      ensures Valid() && View() == Step(old(View()), GetAlarm) && clean == old(clean)
      ensures scheduled.Some? <==>
        && ScopeOf(old(View())) != Refused && LiveToken(old(row)).Some?
        && !old(row).value.inFlight && ValidFields(old(row).value)
      ensures scheduled.Some? ==> row == old(row) && scheduled.value == row.value.scheduled
      ensures clean ==> row == old(row) && Target(View(), false) == LiveToken(row)
    {
      hide Inv, Mirror;
      ShimKept(View(), clean, GetAlarm);
      var scope := ScopeNow();
      if scope == Refused || row.None? { return None; }
      if IsDeleteFence(row.value.token) || row.value.inFlight { return None; }
      if row.value.scheduled <= 0 || row.value.retry < 0 {
        row := None;
        return None;
      }
      if scope == Outside { EnqueueMutation(Repair(row.value.token)); }
      scheduled := Some(row.value.scheduled);
    }

    method ClaimStorageAlarm(alarmToken: Option<string>, retry: Option<int>, now: int)
      returns (claim: Option<(string, int)>)
      requires Valid()
      modifies this`row
      ensures Valid() && View() == Step(old(View()), Claim(alarmToken, retry, now)) && clean == old(clean)
      ensures claim.Some? ==> row.Some? && claim.value == (row.value.token, row.value.retry)
      ensures claim.Some? ==> row.value.inFlight && LiveToken(row) == LiveToken(old(row))
    {
      hide Inv, Mirror;
      ShimKept(View(), clean, Claim(alarmToken, retry, now));
      if row.None? || IsDeleteFence(row.value.token) { return None; }
      var current := row.value;
      if current.scheduled <= 0 || current.retry < 0 {
        row := None;
        return None;
      }
      if alarmToken.Some? && alarmToken.value != "" && alarmToken.value != current.token { return None; }
      var retryCount := if retry.Some? then retry.value else current.retry;
      if retryCount < 0 { return None; }
      if !current.inFlight && current.scheduled > now { return None; }
      row := Some(Row(current.scheduled, retryCount, true, current.token));
      claim := Some((current.token, retryCount));
    }

    method CompleteStorageAlarm(token: string)
      requires Valid()
      modifies this`row, this`clean
      ensures Valid() && View() == Step(old(View()), Complete(token)) && !clean
      ensures row.Some? ==> row == old(row) && Lineage(row.value.token) != token
    {
      hide Inv, Mirror;
      ShimKept(View(), clean, Complete(token));
      clean := false;
      if row.Some? && Lineage(row.value.token) == token { row := None; }
    }

    method BeginTransaction() returns (ok: bool)
      requires Valid()
      modifies this
      ensures Valid() && View() == Step(old(View()), Begin) && clean == old(clean)
      ensures !ok ==> View() == old(View())
      ensures ok ==>
        Last(frames).savepoint == row && ScopeOf(View()) == if |frames| == 1 then InTransaction else Refused
    {
      hide Inv, Mirror;
      ShimKept(View(), clean, Begin);
      if frames == [] {
        if active.Some? && active.value !in finishing { return false; }
      } else {
        var last := frames[|frames| - 1];
        if active != Some(last.id) || last.closed || last.rolledBack { return false; }
      }
      frames := frames + [Frame(nextId, row, false, false)];
      active := Some(nextId);
      nextId := nextId + 1;
      ok := true;
    }

    method EndCallback()
      requires Valid()
      modifies this`frames
      ensures Valid() && View() == Step(old(View()), AlarmProtocol.EndCallback) && clean == old(clean)
      ensures frames != [] && active == Some(Last(frames).id) ==> ScopeOf(View()) == Refused
    {
      hide Inv, Mirror;
      ShimKept(View(), clean, AlarmProtocol.EndCallback);
      if frames == [] || active != Some(frames[|frames| - 1].id) { return; }
      frames := frames[|frames| - 1 := frames[|frames| - 1].(closed := true)];
      assert frames == SetLast(old(frames), Last(old(frames)).(closed := true));
    }

    /** Drop the effects a transaction collected. */
    method ClearEffects(tx: nat)
      modifies this`queue
      ensures |queue| == |old(queue)| && forall i :: 0 <= i < |queue| ==> queue[i] == Cleared(old(queue)[i], tx)
    {
      for i := 0 to |queue|
        invariant |queue| == |old(queue)|
        invariant forall j :: 0 <= j < i ==> queue[j] == Cleared(old(queue)[j], tx)
        invariant forall j :: i <= j < |queue| ==> queue[j] == old(queue)[j]
      {
        if queue[i].Held? && queue[i].tx == tx { queue := queue[i := queue[i].(effects := [])]; }
      }
    }

    /** Fix the outcome of a transaction's reservation. */
    method DecideReservation(tx: nat, outcome: Outcome)
      modifies this`queue
      ensures |queue| == |old(queue)| && forall i :: 0 <= i < |queue| ==>
        queue[i] == Decided(old(queue)[i], tx, outcome)
    {
      for i := 0 to |queue|
        invariant |queue| == |old(queue)|
        invariant forall j :: 0 <= j < i ==> queue[j] == Decided(old(queue)[j], tx, outcome)
        invariant forall j :: i <= j < |queue| ==> queue[j] == old(queue)[j]
      {
        if queue[i].Held? && queue[i].tx == tx { queue := queue[i := queue[i].(outcome := outcome)]; }
      }
    }

    /** Turn a transaction's reservation into its last effect, or into nothing. */
    method SettleReservation(tx: nat)
      modifies this`queue
      ensures |queue| == |old(queue)| && forall i :: 0 <= i < |queue| ==> queue[i] == Settled(old(queue)[i], tx)
    {
      for i := 0 to |queue|
        invariant |queue| == |old(queue)|
        invariant forall j :: 0 <= j < i ==> queue[j] == Settled(old(queue)[j], tx)
        invariant forall j :: i <= j < |queue| ==> queue[j] == old(queue)[j]
      {
        var e := queue[i];
        if e.Held? && e.tx == tx {
          queue := queue[i := Ready(if e.outcome == Discarded || e.effects == [] then Skip
                                    else e.effects[|e.effects| - 1])];
        }
      }
    }

    method RollbackTransaction()
      requires Valid()
      modifies this
      ensures Valid() && View() == Step(old(View()), Rollback) && clean == old(clean)
    {
      hide Inv, Mirror;
      ShimKept(View(), clean, Rollback);
      ghost var before := View();
      if frames == [] { return; }
      var n := |frames| - 1;
      var last := frames[n];
      if active != Some(last.id) || last.closed || last.rolledBack { return; }
      row := last.savepoint;
      frames := frames[n := last.(rolledBack := true)];
      assert frames == SetLast(before.frames, last.(rolledBack := true));
      ClearEffects(last.id);
      assert View().queue == RollbackStep(before).queue;
      assert View() == RollbackStep(before);
    }

    method FinishTransaction(commit: bool)
      requires Valid()
      modifies this
      ensures Valid() && View() == FinishStep(old(View()), commit) && clean == old(clean)
      ensures clean ==> Target(View(), false) == LiveToken(row)
    {
      hide Inv, Mirror, Step, FinishStep;
      ShimFinishKept(View(), clean, commit);
      ghost var before := View();
      FinishNeedsClosed(before, commit);
      if frames == [] || !frames[|frames| - 1].closed { return; }
      var last := frames[|frames| - 1];
      if !commit && !last.rolledBack { row := last.savepoint; }
      frames := frames[..|frames| - 1];
      finishing := finishing + {last.id};
      DecideReservation(last.id, if commit && !last.rolledBack then Committed else Discarded);
      FinishIs(before, commit, queue);
    }

    /** The innermost transaction that is still open. */
    method RestorableContext() returns (id: Option<nat>)
      ensures id == Restorable(frames)
    {
      var k := |frames|;
      assert frames[..k] == frames;
      while k > 0 && frames[k - 1].closed
        invariant 0 <= k <= |frames|
        invariant Restorable(frames[..k]) == Restorable(frames)
      {
        assert frames[..k][..k - 1] == frames[..k - 1];
        k := k - 1;
      }
      id := if k == 0 then None else Some(frames[k - 1].id);
    }

    method SettleTransaction(id: nat)
      requires Valid()
      modifies this
      ensures Valid() && View() == Step(old(View()), Settle(id)) && clean == old(clean)
    {
      hide Inv, Mirror;
      ShimKept(View(), clean, Settle(id));
      ghost var before := View();
      if id !in finishing { return; }
      finishing := finishing - {id};
      if active == Some(id) { active := RestorableContext(); }
      SettleReservation(id);
      assert View().queue == SettleStep(before, id).queue;
      assert View() == SettleStep(before, id);
    }

    method BackendApplies()
      requires Valid()
      modifies this
      ensures Valid() && View() == Step(old(View()), Apply) && clean == old(clean)
      ensures row == old(row) && (clean ==> Target(View(), false) == old(Target(View(), false)))
    {
      hide Inv, Mirror;
      ShimKept(View(), clean, Apply);
      if applied || queue == [] || !queue[0].Ready? { return; }
      match queue[0].mutation {
        case SetIndex(t) => index := Some(t);
        case Repair(t) => index := Some(t);
        case DeleteIndex(t, _, _) => if index == Some(t) { index := None; }
        case Skip =>
      }
      applied := true;
    }

    method MutationSucceeds()
      requires Valid()
      modifies this
      ensures Valid() && View() == Step(old(View()), Succeed) && clean == old(clean)
      ensures clean ==> LiveToken(row) == LiveToken(old(row)) && (queue == [] ==> index == LiveToken(row))
    {
      hide Inv, Mirror;
      ShimKept(View(), clean, Succeed);
      if queue == [] || !queue[0].Ready? { return; }
      var m := queue[0].mutation;
      if !applied && !m.Skip? { return; }
      if m.DeleteIndex? && row.Some? && Lineage(row.value.token) == m.token { row := None; }
      queue, applied := queue[1..], false;
    }

    method MutationFails()
      requires Valid()
      modifies this
      ensures Valid() && View() == Step(old(View()), Fail) && !clean
      ensures row != old(row) ==> old(row).Some? && old(queue) != [] && old(queue)[0].Ready?
      ensures row != old(row) ==>
        (match old(queue)[0].mutation
         case SetIndex(t) => old(row).value.token == t && row == None
         case DeleteIndex(_, fence, saved) => old(row).value.token == fence && row == Some(saved)
         case _ => false)
    {
      hide Inv, Mirror;
      ShimKept(View(), clean, Fail);
      clean := false;
      if queue == [] || !queue[0].Ready? || queue[0].mutation.Skip? { return; }
      match queue[0].mutation {
        case SetIndex(t) => if row.Some? && row.value.token == t { row := None; }
        case DeleteIndex(_, fence, saved) =>
          if row.Some? && row.value.token == fence { row := Some(saved); }
        case _ =>
      }
      queue, applied := queue[1..], false;
    }
  }
}
