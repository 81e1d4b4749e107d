/** The Durable Object alarm shim as a state machine: one SQLite alarm row, the FIFO queue of
    backend mutations, the backend's index entry for this object, and the transaction stack.
    A step is the code between two awaits. A step that the code refuses (it throws, or its
    guard fails) leaves the state unchanged. */
module AlarmProtocol {
  import opened Prelude
  import opened AlarmTokens

  datatype Row = Row(scheduled: int, retry: int, inFlight: bool, token: string)

  /** A queued backend call together with what its completion does to the row. */
  datatype Mutation =
    | SetIndex(token: string)
    | DeleteIndex(token: string, fence: string, saved: Row)
    | Repair(token: string)
    | Skip

  datatype Outcome = Undecided | Committed | Discarded

  /** A queue slot: runnable, or reserved by a transaction that collects its effects in it. */
  datatype Entry =
    | Ready(mutation: Mutation)
    | Held(tx: nat, effects: seq<Mutation>, outcome: Outcome)

  /** One native transaction: `frames[0]` is the outer one, the rest are nested savepoints. */
  datatype Frame = Frame(id: nat, savepoint: Option<Row>, closed: bool, rolledBack: bool)

  datatype State = State(
    row: Option<Row>,
    queue: seq<Entry>,
    applied: bool,            // the backend has carried out the call at the head of the queue
    index: Option<string>,    // the row token the backend holds for this object
    frames: seq<Frame>,
    active: Option<nat>,      // transactionContext.active
    finishing: set<nat>,      // natively finished, wrapper not yet resumed
    nextId: nat,
    used: set<string>         // ids handed out by randomUUID()
  )

  datatype Event =
    | SetAlarm(time: real, uuid: string)
    | DeleteAlarm(uuid: string)
    | GetAlarm
    | Claim(alarmToken: Option<string>, retry: Option<int>, now: int)
    | Complete(claimed: string)
    | Begin
    | EndCallback
    | Rollback
    | Commit
    | Abort
    | Settle(id: nat)
    | Apply
    | Succeed
    | Fail

  datatype Scope = Outside | InTransaction | Refused

  /** Where an alarm call made now belongs: nested, closed and rolled-back transactions refuse it. */
  function ScopeOf(s: State): Scope {
    match s.active
    case None => Outside
    case Some(id) =>
      if |s.frames| == 1 && s.frames[0].id == id && !s.frames[0].closed && !s.frames[0].rolledBack
      then InTransaction else Refused
  }

  predicate Fresh(s: State, uuid: string) {
    IsUuid(uuid) && uuid !in s.used
  }

  predicate ValidFields(row: Row) {
    row.scheduled > 0 && row.retry >= 0
  }

  predicate Reserved(queue: seq<Entry>, tx: nat) {
    exists i :: 0 <= i < |queue| && queue[i].Held? && queue[i].tx == tx
  }

  function WithEffect(e: Entry, tx: nat, m: Mutation): Entry {
    if e.Held? && e.tx == tx then e.(effects := e.effects + [m]) else e
  }

  /** enqueueAlarmMutation / appendAlarmSideEffect. */
  function Enqueue(s: State, m: Mutation): seq<Entry>
    requires ScopeOf(s) != Refused
  {
    if ScopeOf(s) == Outside then s.queue + [Ready(m)]
    else
      var tx := s.frames[0].id;
      if Reserved(s.queue, tx)
      then seq(|s.queue|, i requires 0 <= i < |s.queue| => WithEffect(s.queue[i], tx, m))
      else s.queue + [Held(tx, [m], Undecided)]
  }

  function SetAlarmStep(s: State, time: real, uuid: string): State {
    if ScopeOf(s) == Refused || time <= 0.0 || !Fresh(s, uuid) then s
    else s.(
      row := Some(Row(time.Floor, 0, false, uuid)),
      queue := Enqueue(s, SetIndex(uuid)),
      used := s.used + {uuid})
  }

  /** Inside a transaction the row to delete is the one the transaction started from: the backend
      never hears of alarms the transaction set in between. */
  function DeleteTarget(s: State): Option<Row> {
    if ScopeOf(s) == InTransaction then s.frames[0].savepoint else s.row
  }

  function Tombstone(row: Option<Row>, fence: string): Option<Row> {
    if row.Some? then Some(row.value.(token := fence, inFlight := true)) else None
  }

  function DeleteMutation(s: State, uuid: string): Mutation {
    match DeleteTarget(s)
    case None => Skip
    case Some(target) =>
      var token := Lineage(target.token);
      DeleteIndex(token, DeleteFence(uuid, token), target)
  }

  function DeleteAlarmStep(s: State, uuid: string): State {
    if ScopeOf(s) == Refused || !Fresh(s, uuid) then s
    else
      var m := DeleteMutation(s, uuid);
      s.(
        row := if m.DeleteIndex? then Tombstone(s.row, m.fence) else None,
        queue := Enqueue(s, m),
        used := s.used + {uuid})
  }

  function GetAlarmStep(s: State): State {
    if ScopeOf(s) == Refused || s.row.None? || IsDeleteFence(s.row.value.token) || s.row.value.inFlight then s
    else if !ValidFields(s.row.value) then s.(row := None)
    else if ScopeOf(s) == Outside then s.(queue := s.queue + [Ready(Repair(s.row.value.token))])
    else s
  }

  function GetAlarmResult(s: State): Option<int> {
    if ScopeOf(s) == Refused || s.row.None? || IsDeleteFence(s.row.value.token) || s.row.value.inFlight
      || !ValidFields(s.row.value)
    then None else Some(s.row.value.scheduled)
  }

  function ClaimStep(s: State, alarmToken: Option<string>, retry: Option<int>, now: int): State {
    if s.row.None? || IsDeleteFence(s.row.value.token) then s
    else if !ValidFields(s.row.value) then s.(row := None)
    else
      var row := s.row.value;
      var retryCount := if retry.Some? then retry.value else row.retry;
      if alarmToken.Some? && alarmToken.value != "" && alarmToken.value != row.token then s
      else if retryCount < 0 then s
      else if !row.inFlight && row.scheduled > now then s
      else s.(row := Some(row.(retry := retryCount, inFlight := true)))
  }

  function DeleteRowIfLineage(row: Option<Row>, token: string): Option<Row> {
    if row.Some? && Lineage(row.value.token) == token then None else row
  }

  predicate Innermost(s: State) {
    s.frames != [] && s.active == Some(Last(s.frames).id)
  }

  predicate BeginEnabled(s: State) {
    if s.frames == [] then s.active.None? || s.active.value in s.finishing
    else Innermost(s) && !Last(s.frames).closed && !Last(s.frames).rolledBack
  }

  function BeginStep(s: State): State {
    if !BeginEnabled(s) then s
    else s.(
      frames := s.frames + [Frame(s.nextId, s.row, false, false)],
      active := Some(s.nextId),
      nextId := s.nextId + 1)
  }

  function SetLast(frames: seq<Frame>, f: Frame): seq<Frame>
    requires frames != []
  {
    frames[..|frames| - 1] + [f]
  }

  function EndCallbackStep(s: State): State {
    if !Innermost(s) then s
    else s.(frames := SetLast(s.frames, Last(s.frames).(closed := true)))
  }

  function Cleared(e: Entry, tx: nat): Entry {
    if e.Held? && e.tx == tx then e.(effects := []) else e
  }

  /** `txn.rollback()`: the native state goes back at once and the collected effects are dropped. */
  function RollbackStep(s: State): State {
    if !Innermost(s) || Last(s.frames).closed || Last(s.frames).rolledBack then s
    else
      var last := Last(s.frames);
      s.(
        row := last.savepoint,
        frames := SetLast(s.frames, last.(rolledBack := true)),
        queue := seq(|s.queue|, i requires 0 <= i < |s.queue| => Cleared(s.queue[i], last.id)))
  }

  function Decided(e: Entry, tx: nat, outcome: Outcome): Entry {
    if e.Held? && e.tx == tx then e.(outcome := outcome) else e
  }

  /** The native transaction ends; its reservation is decided but still blocks the queue. */
  function FinishStep(s: State, commit: bool): State {
    if s.frames == [] || !Last(s.frames).closed then s
    else
      var last := Last(s.frames);
      var outcome := if commit && !last.rolledBack then Committed else Discarded;
      s.(
        row := if commit || last.rolledBack then s.row else last.savepoint,
        frames := s.frames[..|s.frames| - 1],
        finishing := s.finishing + {last.id},
        queue := seq(|s.queue|, i requires 0 <= i < |s.queue| => Decided(s.queue[i], last.id, outcome)))
  }

  /** Only the last collected effect runs: one object has one alarm row. */
  function Resolve(e: Entry): Mutation
    requires e.Held?
  {
    if e.outcome != Discarded && e.effects != [] then Last(e.effects) else Skip
  }

  function Settled(e: Entry, tx: nat): Entry {
    if e.Held? && e.tx == tx then Ready(Resolve(e)) else e
  }

  function Restorable(frames: seq<Frame>): Option<nat> {
    if frames == [] then None
    else if !Last(frames).closed then Some(Last(frames).id)
    else Restorable(frames[..|frames| - 1])
  }

  /** The `transaction` wrapper resumes after the native transaction settled. */
  function SettleStep(s: State, id: nat): State {
    if id !in s.finishing then s
    else s.(
      finishing := s.finishing - {id},
      active := if s.active == Some(id) then Restorable(s.frames) else s.active,
      queue := seq(|s.queue|, i requires 0 <= i < |s.queue| => Settled(s.queue[i], id)))
  }

  /** The backend: set is unconditional, delete is conditional on the row token. */
  function ApplyTo(index: Option<string>, m: Mutation): Option<string> {
    match m
    case SetIndex(t) => Some(t)
    case Repair(t) => Some(t)
    case DeleteIndex(t, _, _) => if index == Some(t) then None else index
    case Skip => index
  }

  function ApplyStep(s: State): State {
    if s.applied || s.queue == [] || !s.queue[0].Ready? then s
    else s.(index := ApplyTo(s.index, s.queue[0].mutation), applied := true)
  }

  function SucceedStep(s: State): State {
    if s.queue == [] || !s.queue[0].Ready? || !(s.applied || s.queue[0].mutation.Skip?) then s
    else
      var m := s.queue[0].mutation;
      s.(
        row := if m.DeleteIndex? then DeleteRowIfLineage(s.row, m.token) else s.row,
        queue := s.queue[1..],
        applied := false)
  }

  /** The backend call is reported failed, whether or not the backend carried it out. */
  function FailStep(s: State): State {
    if s.queue == [] || !s.queue[0].Ready? || s.queue[0].mutation.Skip? then s
    else
      var m := s.queue[0].mutation;
      s.(
        row := match m
          case SetIndex(t) => if s.row.Some? && s.row.value.token == t then None else s.row
          case DeleteIndex(_, fence, saved) =>
            if s.row.Some? && s.row.value.token == fence then Some(saved) else s.row
          case _ => s.row,
        queue := s.queue[1..],
        applied := false)
  }

  function Step(s: State, e: Event): State {
    match e
    case SetAlarm(time, uuid) => SetAlarmStep(s, time, uuid)
    case DeleteAlarm(uuid) => DeleteAlarmStep(s, uuid)
    case GetAlarm => GetAlarmStep(s)
    case Claim(token, retry, now) => ClaimStep(s, token, retry, now)
    case Complete(claimed) => s.(row := DeleteRowIfLineage(s.row, claimed))
    case Begin => BeginStep(s)
    case EndCallback => EndCallbackStep(s)
    case Rollback => RollbackStep(s)
    case Commit => FinishStep(s, true)
    case Abort => FinishStep(s, false)
    case Settle(id) => SettleStep(s, id)
    case Apply => ApplyStep(s)
    case Succeed => SucceedStep(s)
    case Fail => FailStep(s)
  }

  function Run(s: State, es: seq<Event>): State
    decreases |es|
  {
    if es == [] then s else Run(Step(s, es[0]), es[1..])
  }
}
