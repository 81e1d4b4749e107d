/** Ownership of one Durable Object host scope: the same lease protocol fenced by the worker's storage
    pointer and delete lock, and a drain that waits for in-flight dispatches. The host id is built from
    the storage id, so every record under one owner key carries the same `storage`. */
module DoOwner {
  import opened Prelude
  import opened OwnerLease

  datatype Scope = Scope(ttl: int, storage: string)

  /** A write of the owner record, with the storage pointer and lock as they were at that moment. */
  datatype Commit = Commit(owner: Owner, claim: bool, pointer: Option<string>, locked: bool)

  datatype DoSnapshot = DoSnapshot(rec: Option<Owner>, counter: nat, pointer: Option<string>, locked: bool, at: int)

  datatype DoWrite = DoWrite(owner: Option<Owner>, claim: bool, counter: Option<nat>)

  /** A session watches the record, the counter, the delete lock, the pointer and the policy, reads them, decides
      what to write and sends EXEC. */
  datatype DoAttempt = DoAttempt(task: nat, rev: nat, snap: Option<DoSnapshot>, write: Option<DoWrite>)

  datatype DoState = DoState(
    now: int,
    rec: Option<Owner>,
    dead: int,
    counter: nat,
    pointer: Option<string>,
    locked: bool,                   // a whole-worker delete lock is held
    rev: nat,                       // moved by every change of a watched key
    attempts: map<nat, DoAttempt>,
    renewals: map<nat, Renewal>,
    draining: set<nat>,
    inFlight: map<nat, nat>,
    drained: set<nat>,              // tasks whose in-flight wait answered drained
    commits: seq<Commit>
  )

  datatype DoEvent =
    | DoTick(ms: nat)
    | DoCounterLost(to: nat)
    | SetPointer(pointer: Option<string>)
    | SetLock(locked: bool)
    | SetPolicy
    | DoWatch(a: nat, task: nat)
    | DoSnap(a: nat)
    | DoDecide(a: nat, alreadyLocal: bool)
    | DoExec(a: nat)
    | DoRenewRead(r: nat, fence: Fence)
    | DoRenewEval(r: nat)
    | BeginDispatch(task: nat)
    | EndDispatch(task: nat)
    | SetDraining(task: nat)
    | DrainWaitEnds(task: nat)
    | DoRelease(task: nat, raw: Owner)

  function Touch(s: DoState): DoState {
    s.(rev := s.rev + 1)
  }

  function DoElapse(s: DoState, ms: nat): DoState {
    var t := s.(now := s.now + ms);
    if s.rec.Some? && s.dead <= t.now then Touch(t.(rec := None)) else t
  }

  predicate PointerMatches(c: Scope, pointer: Option<string>) {
    c.storage != "" && pointer == Some(c.storage)
  }

  function DoLeaseAt(c: Scope, at: int): int {
    Min(MAX_SAFE_INTEGER, at + c.ttl)
  }

  /** The lease is in its second half. */
  predicate RenewDue(c: Scope, o: Owner, at: int) {
    2 * (o.lease - at) <= c.ttl
  }

  /** resolveDoOwner's decision after its watched read. */
  function DoPlan(c: Scope, task: nat, draining: bool, alreadyLocal: bool, snap: DoSnapshot): Option<DoWrite> {
    if snap.locked || draining || !PointerMatches(c, snap.pointer) then None
    else if snap.rec.Some? && !Expired(snap.rec.value, snap.at) then
      var current := snap.rec.value;
      var known := if alreadyLocal then current.gen else snap.counter;
      var repair := known < current.gen;
      var renew := RenewDue(c, current, snap.at);
      if current.task != task || (!repair && !renew) then None
      else Some(DoWrite(
        if renew then Some(Owner(task, current.gen, DoLeaseAt(c, snap.at))) else None,
        false,
        if repair then Some(current.gen) else None))
    else
      match NextGeneration(snap.counter, snap.rec)
      case None => None
      case Some(gen) => Some(DoWrite(Some(Owner(task, gen, DoLeaseAt(c, snap.at))), true, Some(gen)))
  }

  function WriteOwner(c: Scope, s: DoState, owner: Owner, claim: bool): DoState {
    Touch(s.(rec := Some(owner), dead := s.now + c.ttl,
             commits := s.commits + [Commit(owner, claim, s.pointer, s.locked)]))
  }

  function DoPerform(c: Scope, s: DoState, w: DoWrite): DoState {
    var t := if w.counter.Some? then Touch(s.(counter := w.counter.value)) else s;
    if w.owner.Some? then WriteOwner(c, t, w.owner.value, w.claim) else t
  }

  /** The read is back: plan on it, by whether the task drains and already owns the scope now. */
  function DoDecideStep(c: Scope, s: DoState, a: nat, alreadyLocal: bool): DoState {
    if a !in s.attempts || s.attempts[a].snap.None? then s
    else
      var x := s.attempts[a];
      match DoPlan(c, x.task, x.task in s.draining, alreadyLocal, x.snap.value)
      case None => s.(attempts := s.attempts - {a})
      case Some(w) => s.(attempts := s.attempts[a := x.(write := Some(w))])
  }

  function DoExecStep(c: Scope, s: DoState, a: nat): DoState {
    if a !in s.attempts || s.attempts[a].write.None? then s
    else
      var t := s.(attempts := s.attempts - {a});
      if s.attempts[a].rev == s.rev then DoPerform(c, t, s.attempts[a].write.value) else t
  }

  function DoRenewReadStep(c: Scope, s: DoState, r: nat, f: Fence): DoState {
    if r in s.renewals || !Matches(s.rec, f) || !PointerMatches(c, s.pointer) || Expired(s.rec.value, s.now)
    then s
    else s.(renewals := s.renewals[r := Renewal(s.rec.value, s.now)])
  }

  /** The Lua script: compare the record, compare the pointer, write. */
  function DoRenewEvalStep(c: Scope, s: DoState, r: nat): DoState {
    if r !in s.renewals then s
    else
      var renewal := s.renewals[r];
      var t := s.(renewals := s.renewals - {r});
      if s.rec != Some(renewal.raw) || s.pointer != Some(c.storage) then t
      else WriteOwner(c, t, Owner(renewal.raw.task, renewal.raw.gen, DoLeaseAt(c, renewal.at)), false)
  }

  function InFlight(s: DoState, task: nat): nat {
    if task in s.inFlight then s.inFlight[task] else 0
  }

  function DoStep(c: Scope, s: DoState, e: DoEvent): DoState {
    match e
    case DoTick(ms) => DoElapse(s, ms)
    case DoCounterLost(to) => if to < s.counter then Touch(s.(counter := to)) else s
    case SetPointer(p) => Touch(s.(pointer := p))
    case SetLock(locked) => Touch(s.(locked := locked))
    case SetPolicy => Touch(s)
    case DoWatch(a, task) =>
      if a in s.attempts then s else s.(attempts := s.attempts[a := DoAttempt(task, s.rev, None, None)])
    case DoSnap(a) =>
      if a !in s.attempts then s
      else s.(attempts := s.attempts[a :=
        s.attempts[a].(snap := Some(DoSnapshot(s.rec, s.counter, s.pointer, s.locked, s.now)), write := None)])
    case DoDecide(a, alreadyLocal) => DoDecideStep(c, s, a, alreadyLocal)
    case DoExec(a) => DoExecStep(c, s, a)
    case DoRenewRead(r, f) => DoRenewReadStep(c, s, r, f)
    case DoRenewEval(r) => DoRenewEvalStep(c, s, r)
    case BeginDispatch(task) =>
      if task in s.draining then s else s.(inFlight := s.inFlight[task := InFlight(s, task) + 1])
    case EndDispatch(task) =>
      if InFlight(s, task) > 0 then s.(inFlight := s.inFlight[task := InFlight(s, task) - 1]) else s
    case SetDraining(task) => s.(draining := s.draining + {task})
    case DrainWaitEnds(task) =>
      if task in s.draining && InFlight(s, task) == 0 then s.(drained := s.drained + {task}) else s
    case DoRelease(task, raw) =>
      if task in s.drained && raw.task == task && s.rec == Some(raw) then Touch(s.(rec := None)) else s
  }

  function DoRun(c: Scope, s: DoState, es: seq<DoEvent>): DoState
    decreases |es|
  {
    if es == [] then s else DoRun(c, DoStep(c, s, es[0]), es[1..])
  }

  // ---- Invariants ----

  /** The write was planned on what the session read, while its task did not drain. */
  predicate Planned(c: Scope, a: DoAttempt) {
    a.write.Some? ==>
      && a.snap.Some?
      && (|| a.write == DoPlan(c, a.task, false, true, a.snap.value)
          || a.write == DoPlan(c, a.task, false, false, a.snap.value))
  }

  /** A session whose watched keys are untouched read what is stored now. */
  predicate DoAttemptOk(c: Scope, s: DoState, a: DoAttempt) {
    && Planned(c, a) && a.rev <= s.rev
    && (a.snap.Some? && a.rev == s.rev ==>
          && a.snap.value.rec == s.rec && a.snap.value.counter == s.counter
          && a.snap.value.pointer == s.pointer && a.snap.value.locked == s.locked)
  }

  predicate DoAttempts(c: Scope, s: DoState) {
    forall a :: a in s.attempts ==> DoAttemptOk(c, s, s.attempts[a])
  }

  /** The storage fence held at every write of the record. */
  predicate Fenced(c: Scope, commits: seq<Commit>) {
    forall i :: 0 <= i < |commits| ==>
      commits[i].pointer == Some(c.storage) && (commits[i].claim ==> !commits[i].locked)
  }

  /** Claims take growing generations; a renewal repeats the owner before it with its new lease. */
  predicate Succession(commits: seq<Commit>) {
    forall i, j :: 0 <= i < j < |commits| ==> Follows(commits[i], commits[j], i + 1 == j)
  }

  predicate Follows(before: Commit, after: Commit, adjacent: bool) {
    && before.owner.gen <= after.owner.gen
    && (after.claim ==> before.owner.gen < after.owner.gen)
    && (!after.claim && adjacent ==> FenceOf(before.owner) == FenceOf(after.owner))
  }

  predicate Latest(s: DoState) {
    && Succession(s.commits)
    && (s.rec.Some? ==> s.commits != [] && s.rec.value == Last(s.commits).owner)
    && (forall i :: 0 <= i < |s.commits| ==> s.commits[i].owner.gen <= MAX_SAFE_INTEGER)
  }

  function DoTop(s: DoState): nat {
    if s.commits == [] then 0 else Last(s.commits).owner.gen
  }

  /** Nothing remembers the newest generation: no record is stored and the counter is behind it. */
  predicate DoStranded(s: DoState) {
    s.rec.None? && s.counter < DoTop(s)
  }

  predicate DrainedIdle(s: DoState) {
    forall t :: t in s.drained ==> t in s.draining && InFlight(s, t) == 0
  }

  predicate DoInv(c: Scope, s: DoState) {
    DoAttempts(c, s) && Fenced(c, s.commits) && Latest(s) && DrainedIdle(s)
  }

  /** A change of a watched key moves the revision. */
  predicate DoAdvances(s: DoState, t: DoState) {
    s.rev <= t.rev && (s.rev == t.rev ==>
      t.rec == s.rec && t.counter == s.counter && t.pointer == s.pointer && t.locked == s.locked)
  }

  lemma WriteFacts(c: Scope, s: DoState, owner: Owner, claim: bool)
    ensures var t := WriteOwner(c, s, owner, claim);
      && t.rev == s.rev + 1 && s.commits <= t.commits && t.attempts == s.attempts
      && t.draining == s.draining && t.inFlight == s.inFlight && t.drained == s.drained
  {
  }

  lemma PerformFacts(c: Scope, s: DoState, w: DoWrite)
    ensures var t := DoPerform(c, s, w);
      && DoAdvances(s, t) && s.commits <= t.commits && t.attempts == s.attempts
      && t.draining == s.draining && t.inFlight == s.inFlight && t.drained == s.drained
  {
    hide WriteOwner;
    if w.owner.Some? {
      WriteFacts(c, if w.counter.Some? then Touch(s.(counter := w.counter.value)) else s, w.owner.value, w.claim);
    }
  }

  /** What an EXEC leaves alone. */
  lemma ExecFacts(c: Scope, s: DoState, a: nat)
    ensures var t := DoExecStep(c, s, a);
      && DoAdvances(s, t) && s.commits <= t.commits
      && t.draining == s.draining && t.inFlight == s.inFlight && t.drained == s.drained
      && (forall b :: b in t.attempts ==> b in s.attempts && t.attempts[b] == s.attempts[b])
  {
    hide DoPerform;
    if a in s.attempts && s.attempts[a].write.Some? {
      PerformFacts(c, s.(attempts := s.attempts - {a}), s.attempts[a].write.value);
    }
  }

  lemma EveryStepAdvances(c: Scope, s: DoState, e: DoEvent)
    ensures DoAdvances(s, DoStep(c, s, e))
  {
    hide DoExecStep;
    if e.DoExec? { ExecFacts(c, s, e.a); }
  }

  lemma OthersLeaveDoAttempts(c: Scope, s: DoState, e: DoEvent, a: nat)
    requires !e.DoWatch? && !e.DoSnap? && !e.DoDecide? && a in DoStep(c, s, e).attempts
    ensures a in s.attempts && DoStep(c, s, e).attempts[a] == s.attempts[a]
  {
    hide DoExecStep;
    if e.DoExec? { ExecFacts(c, s, e.a); }
  }

  lemma DoAttemptKept(c: Scope, s: DoState, e: DoEvent, a: nat)
    requires a in s.attempts ==> DoAttemptOk(c, s, s.attempts[a])
    requires DoAdvances(s, DoStep(c, s, e)) && a in DoStep(c, s, e).attempts
    ensures DoAttemptOk(c, DoStep(c, s, e), DoStep(c, s, e).attempts[a])
  {
    if !e.DoWatch? && !e.DoSnap? && !e.DoDecide? { OthersLeaveDoAttempts(c, s, e, a); }
  }

  lemma DoAttemptsKept(c: Scope, s: DoState, e: DoEvent)
    requires DoAttempts(c, s)
    ensures DoAttempts(c, DoStep(c, s, e))
  {
    var t := DoStep(c, s, e);
    EveryStepAdvances(c, s, e);
    forall a | a in t.attempts ensures DoAttemptOk(c, t, t.attempts[a]) { DoAttemptKept(c, s, e, a); }
  }

  lemma WriteKeeps(c: Scope, s: DoState, owner: Owner, claim: bool)
    requires Fenced(c, s.commits) && Latest(s) && owner.gen <= MAX_SAFE_INTEGER
    requires PointerMatches(c, s.pointer) && (claim ==> !s.locked)
    requires claim ==> s.commits == [] || Last(s.commits).owner.gen < owner.gen
    requires !claim ==> s.commits != [] && FenceOf(Last(s.commits).owner) == FenceOf(owner)
    ensures Fenced(c, WriteOwner(c, s, owner, claim).commits) && Latest(WriteOwner(c, s, owner, claim))
  {
    var cs := WriteOwner(c, s, owner, claim).commits;
    var n := |s.commits|;
    forall i, j | 0 <= i < j < |cs| ensures Follows(cs[i], cs[j], i + 1 == j) {
      if j < n {
        assert Follows(s.commits[i], s.commits[j], i + 1 == j);
      } else {
        assert i < n - 1 ==> Follows(s.commits[i], s.commits[n - 1], i + 1 == n - 1);
      }
    }
  }

  lemma ExecKeeps(c: Scope, s: DoState, a: nat)
    requires DoInv(c, s) && !DoStranded(s)
    ensures Fenced(c, DoExecStep(c, s, a).commits) && Latest(DoExecStep(c, s, a))
  {
    if a in s.attempts && s.attempts[a].write.Some? && s.attempts[a].rev == s.rev {
      assert DoAttemptOk(c, s, s.attempts[a]);
      var w := s.attempts[a].write.value;
      if w.owner.Some? {
        var s' := s.(attempts := s.attempts - {a});
        var t := if w.counter.Some? then Touch(s'.(counter := w.counter.value)) else s';
        WriteKeeps(c, t, w.owner.value, w.claim);
      }
    }
  }

  lemma RenewKeeps(c: Scope, s: DoState, r: nat)
    requires DoInv(c, s) && c.storage != ""
    ensures Fenced(c, DoRenewEvalStep(c, s, r).commits) && Latest(DoRenewEvalStep(c, s, r))
  {
    if r in s.renewals && s.rec == Some(s.renewals[r].raw) && s.pointer == Some(c.storage) {
      var raw := s.renewals[r].raw;
      WriteKeeps(c, s.(renewals := s.renewals - {r}),
                 Owner(raw.task, raw.gen, DoLeaseAt(c, s.renewals[r].at)), false);
    }
  }

  predicate WritesOwner(e: DoEvent) {
    e.DoExec? || e.DoRenewEval?
  }

  lemma OthersDoNotWrite(c: Scope, s: DoState, e: DoEvent)
    requires !WritesOwner(e)
    ensures var t := DoStep(c, s, e);
      && t.commits == s.commits && (t.rec == s.rec || t.rec.None?)
      && (!e.DoCounterLost? ==> t.counter == s.counter)
  {
  }

  predicate TaskEvent(e: DoEvent) {
    e.BeginDispatch? || e.EndDispatch? || e.SetDraining? || e.DrainWaitEnds?
  }

  lemma OthersDoNotDispatch(c: Scope, s: DoState, e: DoEvent)
    requires !TaskEvent(e)
    ensures var t := DoStep(c, s, e);
      t.draining == s.draining && t.inFlight == s.inFlight && t.drained == s.drained
  {
    hide DoExecStep;
    if e.DoExec? { ExecFacts(c, s, e.a); }
  }

  lemma DrainedKept(c: Scope, s: DoState, e: DoEvent)
    requires DrainedIdle(s)
    ensures DrainedIdle(DoStep(c, s, e)) && s.drained <= DoStep(c, s, e).drained
  {
    if TaskEvent(e) {
      var t := DoStep(c, s, e);
      forall k | k in t.drained ensures k in t.draining && InFlight(t, k) == 0 {
        assert k in s.drained ==> k in s.draining && InFlight(s, k) == 0;
      }
    } else {
      OthersDoNotDispatch(c, s, e);
    }
  }

  lemma CommitsGrow(c: Scope, s: DoState, e: DoEvent)
    ensures s.commits <= DoStep(c, s, e).commits
  {
    hide DoExecStep;
    if e.DoExec? { ExecFacts(c, s, e.a); }
  }

  lemma DoInvKept(c: Scope, s: DoState, e: DoEvent)
    requires DoInv(c, s) && c.storage != "" && !DoStranded(s)
    ensures DoInv(c, DoStep(c, s, e)) && s.commits <= DoStep(c, s, e).commits
  {
    DoAttemptsKept(c, s, e);
    DrainedKept(c, s, e);
    CommitsGrow(c, s, e);
    if e.DoExec? { ExecKeeps(c, s, e.a); }
    else if e.DoRenewEval? { RenewKeeps(c, s, e.r); }
    else { OthersDoNotWrite(c, s, e); }
  }

  predicate DoInit(s: DoState) {
    && s.rec.None? && s.attempts == map[] && s.renewals == map[]
    && s.draining == {} && s.drained == {} && s.commits == []
  }

  /** No step of the run is taken from a state that has forgotten the newest generation. */
  predicate DoRemembered(c: Scope, s: DoState, es: seq<DoEvent>)
    decreases |es|
  {
    es == [] || (!DoStranded(s) && DoRemembered(c, DoStep(c, s, es[0]), es[1..]))
  }

  lemma {:induction false} DoInvAlong(c: Scope, s: DoState, es: seq<DoEvent>)
    requires DoInv(c, s) && c.storage != "" && DoRemembered(c, s, es)
    ensures DoInv(c, DoRun(c, s, es)) && s.commits <= DoRun(c, s, es).commits
    decreases |es|
  {
    if es != [] {
      DoInvKept(c, s, es[0]);
      DoInvAlong(c, DoStep(c, s, es[0]), es[1..]);
    }
  }

  /** Storage fence and freshness: on every run that never forgets the newest generation, lost and repaired
      counters included, each write of the owner record happened while the storage pointer was the record's
      storage id, each claim also outside a worker delete, each claim took a generation above all earlier owners,
      each renewal kept its owner's fence, and the stored record is the last write. */
  lemma DoWritesAreFenced(c: Scope, s: DoState, es: seq<DoEvent>)
    requires DoInit(s) && c.storage != "" && DoRemembered(c, s, es)
    ensures var t := DoRun(c, s, es);
      && Fenced(c, t.commits) && Succession(t.commits)
      && (t.rec.Some? ==> t.commits != [] && t.rec.value == Last(t.commits).owner)
  {
    DoInvAlong(c, s, es);
  }

  /** assertCurrentOwnerWithLeaseBudget's read passes. */
  predicate DoAsserts(c: Scope, s: DoState, f: Fence) {
    Matches(s.rec, f) && !Expired(s.rec.value, s.now) && PointerMatches(c, s.pointer) && !s.locked
  }

  /** Once a later claim is committed, an earlier owner never passes its assertion again. */
  lemma DoSupersededFenceStaysOut(c: Scope, s: DoState, before: seq<DoEvent>, after: seq<DoEvent>, i: nat, j: nat)
    requires DoInit(s) && c.storage != ""
    requires DoRemembered(c, s, before) && DoRemembered(c, DoRun(c, s, before), after)
    requires var cs := DoRun(c, s, before).commits; i < j < |cs| && cs[j].claim
    ensures !DoAsserts(c, DoRun(c, DoRun(c, s, before), after), FenceOf(DoRun(c, s, before).commits[i].owner))
  {
    var m := DoRun(c, s, before);
    DoInvAlong(c, s, before);
    DoInvAlong(c, m, after);
    var cs := DoRun(c, m, after).commits;
    var n := |cs| - 1;
    assert cs[i] == m.commits[i] && cs[j] == m.commits[j];
    assert Follows(cs[i], cs[j], i + 1 == j);
    if j < n { assert Follows(cs[j], cs[n], j + 1 == n); }
  }

  // ---- What a lost counter costs ----

  predicate DoNoLoss(es: seq<DoEvent>) {
    forall i :: 0 <= i < |es| ==> !es[i].DoCounterLost?
  }

  lemma ExecCounter(c: Scope, s: DoState, a: nat)
    requires DoInv(c, s) && s.counter >= DoTop(s)
    ensures DoExecStep(c, s, a).counter >= DoTop(DoExecStep(c, s, a))
  {
    hide Fenced, DrainedIdle, Succession;
    if a in s.attempts { assert DoAttemptOk(c, s, s.attempts[a]); }
  }

  lemma CounterKept(c: Scope, s: DoState, e: DoEvent)
    requires DoInv(c, s) && s.counter >= DoTop(s) && !e.DoCounterLost?
    ensures DoStep(c, s, e).counter >= DoTop(DoStep(c, s, e))
  {
    hide DoExecStep, DoAttempts, Fenced, DrainedIdle, Succession;
    if e.DoExec? {
      ExecCounter(c, s, e.a);
    } else if !e.DoRenewEval? {
      OthersDoNotWrite(c, s, e);
    }
  }

  lemma {:induction false} DoCounterRemembers(c: Scope, s: DoState, es: seq<DoEvent>)
    requires DoInv(c, s) && c.storage != "" && s.counter >= DoTop(s) && DoNoLoss(es)
    ensures DoRemembered(c, s, es)
    decreases |es|
  {
    if es != [] {
      DoInvKept(c, s, es[0]);
      CounterKept(c, s, es[0]);
      DoCounterRemembers(c, DoStep(c, s, es[0]), es[1..]);
    }
  }

  ghost predicate DoStaysFresh(c: Scope, s: DoState) {
    forall es :: DoNoLoss(es) ==> Succession(DoRun(c, s, es).commits)
  }

  /** The record lapses, the worker's storage is in place, and a task claims. */
  function DoClaiming(c: Scope, ms: nat, task: nat): seq<DoEvent> {
    [DoTick(ms), SetPointer(Some(c.storage)), SetLock(false), DoWatch(task, task), DoSnap(task),
     DoDecide(task, false), DoExec(task)]
  }

  lemma DoClaims(c: Scope, s: DoState, task: nat)
    requires s.rec.None? && PointerMatches(c, s.pointer) && !s.locked && s.counter < MAX_SAFE_INTEGER
    requires task !in s.attempts && task !in s.draining
    ensures var read := DoStep(c, DoStep(c, s, DoWatch(task, task)), DoSnap(task));
      var t := DoStep(c, DoStep(c, read, DoDecide(task, false)), DoExec(task));
      && |t.commits| == |s.commits| + 1 && s.commits <= t.commits
      && Last(t.commits).claim && Last(t.commits).owner.gen == s.counter + 1
  {
    var snap, gen := DoSnapshot(None, s.counter, s.pointer, s.locked, s.now), s.counter + 1;
    var w := DoWrite(Some(Owner(task, gen, DoLeaseAt(c, s.now))), true, Some(gen));
    var s2 := DoStep(c, DoStep(c, s, DoWatch(task, task)), DoSnap(task));
    assert s2 == s.(attempts := s.attempts[task := DoAttempt(task, s.rev, Some(snap), None)]);
    var s3 := DoStep(c, s2, DoDecide(task, false));
    assert s3 == s.(attempts := s.attempts[task := DoAttempt(task, s.rev, Some(snap), Some(w))]);
  }

  function Lapsed(c: Scope, s: DoState, ms: nat): DoState {
    DoStep(c, DoStep(c, DoStep(c, s, DoTick(ms)), SetPointer(Some(c.storage))), SetLock(false))
  }

  lemma LapsedIsFree(c: Scope, s: DoState, ms: nat)
    requires c.storage != "" && s.dead <= s.now + ms
    ensures var t := Lapsed(c, s, ms);
      && t.rec.None? && PointerMatches(c, t.pointer) && !t.locked && t.counter == s.counter && t.commits == s.commits
      && t.attempts == s.attempts && t.draining == s.draining
  {
    var s1 := DoStep(c, s, DoTick(ms));
    assert s1.rec.None? && s1.counter == s.counter && s1.commits == s.commits;
    var s2 := DoStep(c, s1, SetPointer(Some(c.storage)));
    assert s2 == Touch(s1.(pointer := Some(c.storage)));
  }

  lemma DoLaggingCounterRepeats(c: Scope, s: DoState, task: nat) returns (es: seq<DoEvent>)
    requires c.storage != "" && s.counter < DoTop(s) <= MAX_SAFE_INTEGER && task !in s.attempts && task !in s.draining
    ensures DoNoLoss(es) && !Succession(DoRun(c, s, es).commits)
  {
    hide DoStep;
    var ms := if s.dead > s.now then s.dead - s.now else 0;
    es := DoClaiming(c, ms, task);
    LapsedIsFree(c, s, ms);
    DoClaims(c, Lapsed(c, s, ms), task);
    RunsSeven(c, s, es);
    var n, cs := |s.commits| - 1, DoRun(c, s, es).commits;
    assert cs[n] == s.commits[n] && cs[n + 1] == Last(cs);
    assert !Follows(cs[n], cs[n + 1], true);
  }

  lemma RunsSeven(c: Scope, s: DoState, es: seq<DoEvent>)
    requires |es| == 7
    ensures DoRun(c, s, es) == DoStep(c, DoStep(c, DoStep(c, DoStep(c,
      DoStep(c, DoStep(c, DoStep(c, s, es[0]), es[1]), es[2]), es[3]), es[4]), es[5]), es[6])
  {
    hide DoStep;
    var s1 := DoStep(c, s, es[0]);
    var s2 := DoStep(c, s1, es[1]);
    var s3 := DoStep(c, s2, es[2]);
    var s4 := DoStep(c, s3, es[3]);
    var s5 := DoStep(c, s4, es[4]);
    var s6 := DoStep(c, s5, es[5]);
    var s7 := DoStep(c, s6, es[6]);
    assert DoRun(c, s7, es[1..][1..][1..][1..][1..][1..][1..]) == s7;
    assert DoRun(c, s6, es[1..][1..][1..][1..][1..][1..]) == s7;
    assert DoRun(c, s5, es[1..][1..][1..][1..][1..]) == s7;
    assert DoRun(c, s4, es[1..][1..][1..][1..]) == s7;
    assert DoRun(c, s3, es[1..][1..][1..]) == s7;
    assert DoRun(c, s2, es[1..][1..]) == s7;
    assert DoRun(c, s1, es[1..]) == s7;
  }

  lemma DoFullCounterStaysFresh(c: Scope, m: DoState)
    requires c.storage != "" && DoInv(c, m) && m.counter >= DoTop(m)
    ensures DoStaysFresh(c, m)
  {
    forall es | DoNoLoss(es) ensures Succession(DoRun(c, m, es).commits) {
      DoCounterRemembers(c, m, es);
      DoInvAlong(c, m, es);
    }
  }

  /** From any state a remembered run leads to, claims take growing generations over every further run that loses no
      counter if and only if the counter is at least the newest generation. */
  lemma DoGenerationsStayFreshIff(c: Scope, s: DoState, es: seq<DoEvent>)
    requires DoInit(s) && c.storage != "" && DoRemembered(c, s, es)
    ensures DoStaysFresh(c, DoRun(c, s, es)) <==> DoRun(c, s, es).counter >= DoTop(DoRun(c, s, es))
  {
    var m := DoRun(c, s, es);
    DoInvAlong(c, s, es);
    if m.counter >= DoTop(m) {
      DoFullCounterStaysFresh(c, m);
    } else {
      var task := FreshNumber(m.attempts.Keys + m.draining);
      var more := DoLaggingCounterRepeats(c, m, task);
    }
  }

  // ---- Drain ----

  lemma {:induction false} DrainedAlong(c: Scope, s: DoState, es: seq<DoEvent>)
    requires DrainedIdle(s)
    ensures DrainedIdle(DoRun(c, s, es)) && s.drained <= DoRun(c, s, es).drained
    decreases |es|
  {
    if es != [] {
      DrainedKept(c, s, es[0]);
      DrainedAlong(c, DoStep(c, s, es[0]), es[1..]);
    }
  }

  /** Drain safety: once a task's in-flight wait answered drained, it never dispatches again. */
  lemma DoDrainedStaysIdle(c: Scope, s: DoState, es: seq<DoEvent>, more: seq<DoEvent>, task: nat)
    requires DoInit(s) && task in DoRun(c, s, es).drained
    ensures task in DoRun(c, DoRun(c, s, es), more).draining && InFlight(DoRun(c, DoRun(c, s, es), more), task) == 0
  {
    DrainedAlong(c, s, es);
    DrainedAlong(c, DoRun(c, s, es), more);
  }

  /** A record leaves before its TTL only for a task that is draining and has nothing in flight. */
  lemma DoReleasedOnlyWhenDrained(c: Scope, s: DoState, e: DoEvent)
    requires DrainedIdle(s) && s.rec.Some? && DoStep(c, s, e).rec.None? && !e.DoTick?
    ensures s.rec.value.task in s.draining && InFlight(s, s.rec.value.task) == 0
  {
    assert e.DoRelease?;
  }

  /** A renewal in flight while the worker's storage moves is refused, and an undisturbed one commits. */
  lemma RenewalFollowsThePointer(c: Scope, s: DoState, r: nat, f: Fence, p: Option<string>)
    requires c.storage != "" && r !in s.renewals && Matches(s.rec, f) && !Expired(s.rec.value, s.now)
    requires s.pointer == Some(c.storage)
    ensures var t := DoStep(c, DoStep(c, DoStep(c, s, DoRenewRead(r, f)), SetPointer(p)), DoRenewEval(r));
      t.rec == if p == s.pointer then Some(Owner(f.task, f.gen, DoLeaseAt(c, s.now))) else s.rec
  {
    var s1 := DoStep(c, s, DoRenewRead(r, f));
    assert s1.renewals[r] == Renewal(s.rec.value, s.now);
    var s2 := DoStep(c, s1, SetPointer(p));
    assert s2.renewals[r].raw == s.rec.value && s2.rec == s.rec;
  }
}
