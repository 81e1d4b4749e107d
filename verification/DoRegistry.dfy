/** The Durable Object owner registry and dispatch counters as they run, updated in place. Every method keeps each
    write of the record fenced by the storage pointer, generations growing and drained tasks idle. */
module DoRegistry {
  import opened Prelude
  import opened OwnerLease
  import opened DoOwner

  predicate DoSafe(c: Scope, s: DoState) {
    c.storage != "" && DoInv(c, s) && s.counter >= DoTop(s)
  }

  lemma DoSafeKept(c: Scope, s: DoState, e: DoEvent)
    requires DoSafe(c, s) && !e.DoCounterLost?
    ensures DoSafe(c, DoStep(c, s, e)) && s.commits <= DoStep(c, s, e).commits
  {
    DoInvKept(c, s, e);
    CounterKept(c, s, e);
  }

  /** The last write of the record was fenced, and a claim took a generation above all earlier owners. */
  lemma DoSafeLast(c: Scope, s: DoState)
    requires DoSafe(c, s) && s.commits != []
    ensures var last := Last(s.commits);
      && last.pointer == Some(c.storage) && (last.claim ==> !last.locked)
      && (last.claim ==> forall i :: 0 <= i < |s.commits| - 1 ==> s.commits[i].owner.gen < last.owner.gen)
  {
    var n := |s.commits| - 1;
    forall i | 0 <= i < n ensures Follows(s.commits[i], s.commits[n], i + 1 == n) {}
  }

  lemma DoSafeDrained(c: Scope, s: DoState, task: nat)
    requires DoSafe(c, s) && task in s.drained
    ensures task in s.draining && InFlight(s, task) == 0
  {
  }

  lemma DrainingPlansNothing(c: Scope, task: nat, alreadyLocal: bool, snap: DoSnapshot)
    ensures DoPlan(c, task, true, alreadyLocal, snap).None?
  {
  }

  class Runtime {
    const scope: Scope
    var now: int
    var rec: Option<Owner>
    var dead: int
    var counter: nat
    var pointer: Option<string>
    var locked: bool
    var rev: nat
    var attempts: map<nat, DoAttempt>
    var renewals: map<nat, Renewal>
    var draining: set<nat>
    var inFlight: map<nat, nat>
    var drained: set<nat>
    var commits: seq<Commit>

    ghost predicate Valid()
      reads this
    {
      DoSafe(scope, View())
    }

    constructor (c: Scope)
      requires c.storage != ""
      ensures Valid() && scope == c && DoInit(View()) && View().inFlight == map[]
    {
      scope := c;
      now, rec, dead, counter, pointer, locked, rev := 0, None, 0, 0, None, false, 0;
      attempts, renewals, draining, inFlight, drained, commits := map[], map[], {}, map[], {}, [];
    }

    ghost function View(): DoState
      reads this
    {
      DoState(now, rec, dead, counter, pointer, locked, rev, attempts, renewals, draining, inFlight, drained, commits)
    }

    method StoreOwner(owner: Owner, claim: bool)
      modifies this`rec, this`dead, this`rev, this`commits
      ensures View() == WriteOwner(scope, old(View()), owner, claim)
    {
      rec, dead, rev := Some(owner), now + scope.ttl, rev + 1;
      commits := commits + [Commit(owner, claim, pointer, locked)];
    }

    method StoreCounter(gen: nat)
      modifies this`counter, this`rev
      ensures View() == Touch(old(View()).(counter := gen))
    {
      counter, rev := gen, rev + 1;
    }

    /** WATCH of the record, the counter, the delete lock, the pointer and the policy. */
    method BeginSession(a: nat, task: nat)
      requires Valid()
      modifies this`attempts
      ensures Valid() && View() == DoStep(scope, old(View()), DoWatch(a, task))
    {
      hide DoSafe;
      DoSafeKept(scope, View(), DoWatch(a, task));
      if a !in attempts { attempts := attempts[a := DoAttempt(task, rev, None, None)]; }
    }

    method ReadSession(a: nat)
      requires Valid()
      modifies this`attempts
      ensures Valid() && View() == DoStep(scope, old(View()), DoSnap(a))
    {
      hide DoSafe;
      DoSafeKept(scope, View(), DoSnap(a));
      if a in attempts {
        var snap := DoSnapshot(rec, counter, pointer, locked, now);
        attempts := attempts[a := attempts[a].(snap := Some(snap), write := None)];
      }
    }

    /** resolveDoOwner's decision on what was read: give up, repair or renew the local owner, or claim. */
    method ResolveOwner(task: nat, alreadyLocal: bool, snap: DoSnapshot) returns (write: Option<DoWrite>)
      ensures write == DoPlan(scope, task, task in draining, alreadyLocal, snap)
    {
      if snap.locked || task in draining { return None; }
      if scope.storage == "" || snap.pointer != Some(scope.storage) { return None; }
      if snap.rec.Some? && snap.rec.value.lease > snap.at {
        var current := snap.rec.value;
        if current.task != task { return None; }
        var repair := !alreadyLocal && snap.counter < current.gen;
        var renew := 2 * (current.lease - snap.at) <= scope.ttl;
        if !repair && !renew { return None; }
        var renewed := Owner(task, current.gen, DoLeaseAt(scope, snap.at));
        return Some(DoWrite(if renew then Some(renewed) else None, false, if repair then Some(current.gen) else None));
      }
      var previous := snap.counter;
      if snap.rec.Some? && snap.rec.value.gen > previous { previous := snap.rec.value.gen; }
      if previous >= MAX_SAFE_INTEGER { return None; }
      var gen := previous + 1;
      write := Some(DoWrite(Some(Owner(task, gen, DoLeaseAt(scope, snap.at))), true, Some(gen)));
    }

    method DecideSession(a: nat, alreadyLocal: bool)
      requires Valid()
      modifies this`attempts
      ensures Valid() && View() == DoStep(scope, old(View()), DoDecide(a, alreadyLocal))
      ensures a in attempts && attempts[a].write.Some? && old(a in attempts && attempts[a].snap.Some?) ==>
        attempts[a].task !in draining
    {
      hide DoSafe, DoPlan;
      DoSafeKept(scope, View(), DoDecide(a, alreadyLocal));
      if a !in attempts || attempts[a].snap.None? { return; }
      var write := ResolveOwner(attempts[a].task, alreadyLocal, attempts[a].snap.value);
      DrainingPlansNothing(scope, attempts[a].task, alreadyLocal, attempts[a].snap.value);
      if write.None? { attempts := attempts - {a}; } else { attempts := attempts[a := attempts[a].(write := write)]; }
    }

    method StageWrite(w: DoWrite)
      modifies this`rec, this`dead, this`rev, this`commits, this`counter
      ensures View() == DoPerform(scope, old(View()), w)
    {
      if w.counter.Some? { StoreCounter(w.counter.value); }
      if w.owner.Some? { StoreOwner(w.owner.value, w.claim); }
    }

    /** The tail of resolveDoOwner's session: any write it commits is fenced, and a claim is newer than all before. */
    method ExecSession(a: nat)
      requires Valid()
      modifies this
      ensures Valid() && View() == DoStep(scope, old(View()), DoExec(a))
      ensures old(commits) <= commits
      ensures commits != old(commits) ==> Last(commits).pointer == Some(scope.storage)
      ensures commits != old(commits) && Last(commits).claim ==>
        !Last(commits).locked && forall i :: 0 <= i < |commits| - 1 ==> commits[i].owner.gen < Last(commits).owner.gen
    {
      hide DoSafe, DoPerform;
      DoSafeKept(scope, View(), DoExec(a));
      if a !in attempts || attempts[a].write.None? { return; }
      var attempt := attempts[a];
      attempts := attempts - {a};
      if attempt.rev != rev { return; }
      StageWrite(attempt.write.value);
      if commits != [] { DoSafeLast(scope, View()); }
    }

    /** The renewal script, run atomically by Redis. */
    method EvalRenewal(r: nat) returns (answer: int)
      requires Valid()
      modifies this
      ensures Valid() && View() == DoStep(scope, old(View()), DoRenewEval(r))
      ensures answer == 1 <==> |commits| > |old(commits)|
      ensures answer != 1 ==> rec == old(rec)
    {
      hide DoSafe;
      DoSafeKept(scope, View(), DoRenewEval(r));
      if r !in renewals { return 0; }
      var renewal := renewals[r];
      renewals := renewals - {r};
      if rec != Some(renewal.raw) { return 0; }
      if pointer != Some(scope.storage) { return -1; }
      StoreOwner(Owner(renewal.raw.task, renewal.raw.gen, DoLeaseAt(scope, renewal.at)), false);
      answer := 1;
    }

    method BeginInFlightDispatch(task: nat) returns (ok: bool)
      requires Valid()
      modifies this`inFlight
      ensures Valid() && View() == DoStep(scope, old(View()), BeginDispatch(task))
      ensures ok <==> task !in draining
      ensures ok ==> task !in drained && InFlight(View(), task) == old(InFlight(View(), task)) + 1
    {
      hide DoSafe;
      DoSafeKept(scope, View(), BeginDispatch(task));
      if task in drained { DoSafeDrained(scope, View(), task); }
      if task in draining { return false; }
      inFlight := inFlight[task := (if task in inFlight then inFlight[task] else 0) + 1];
      ok := true;
    }

    method EndInFlightDispatch(task: nat)
      requires Valid()
      modifies this`inFlight
      ensures Valid() && View() == DoStep(scope, old(View()), EndDispatch(task))
      ensures forall t ::
        InFlight(View(), t) == old(InFlight(View(), t)) - if t == task && old(InFlight(View(), t)) > 0 then 1 else 0
    {
      hide DoSafe;
      DoSafeKept(scope, View(), EndDispatch(task));
      if task in inFlight && inFlight[task] > 0 { inFlight := inFlight[task := inFlight[task] - 1]; }
    }

    method StartDraining(task: nat)
      requires Valid()
      modifies this`draining
      ensures Valid() && View() == DoStep(scope, old(View()), SetDraining(task))
    {
      hide DoSafe;
      DoSafeKept(scope, View(), SetDraining(task));
      draining := draining + {task};
    }

    /** waitForInFlightDispatches resolves, by a waiter or by its timeout. */
    method FinishDrainWait(task: nat) returns (ok: bool)
      requires Valid()
      modifies this`drained
      ensures Valid() && View() == DoStep(scope, old(View()), DrainWaitEnds(task))
      ensures ok <==> task in draining && InFlight(View(), task) == 0
      ensures ok ==> task in drained
    {
      hide DoSafe;
      DoSafeKept(scope, View(), DrainWaitEnds(task));
      ok := task in draining && (task !in inFlight || inFlight[task] == 0);
      if ok { drained := drained + {task}; }
    }

    /** compare-and-delete: only the record of a drained task goes, and nothing of it is in flight. */
    method ReleaseIfEqual(task: nat, raw: Owner)
      requires Valid()
      modifies this`rec, this`rev
      ensures Valid() && View() == DoStep(scope, old(View()), DoRelease(task, raw))
      ensures rec != old(rec) ==>
        rec.None? && old(rec).Some? && old(rec).value.task in draining && InFlight(View(), old(rec).value.task) == 0
    {
      hide DoSafe;
      DoSafeKept(scope, View(), DoRelease(task, raw));
      if task in drained && raw.task == task && rec == Some(raw) {
        DoSafeDrained(scope, View(), task);
        rec, rev := None, rev + 1;
      }
    }
  }
}
