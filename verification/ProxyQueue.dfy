/** The WebSocket proxy's client message queue: frames wait for an upstream that may reconnect, are sent one
    job at a time, and are bounded by count and by bytes. */
module ProxyQueue {
  import opened Utf8

  const MAX_BUFFERED_CLIENT_BYTES: nat := 32 * 1024 * 1024

  datatype Frame = Text(units: seq<Unit>) | Binary(length: nat)

  datatype Message = Message(index: nat, bytes: nat)

  datatype Phase = Waiting | Retrying | Sent

  datatype State = State(
    maxMessages: nat,
    reconnectDisabled: bool,
    received: seq<Frame>,           // frames accepted into the queue
    queue: seq<Message>,
    bytes: int,
    gauge: int,                     // sum of adjustBufferedMessages
    closed: bool,
    job: nat,                       // the frame whose send job runs next or now
    phase: Phase,
    sent: seq<nat>                  // frames an upstream accepted, in order
  )

  datatype Event =
    | Receive(frame: Frame)
    | Send(ok: bool)
    | Resend(ok: bool)
    | GiveUp                        // no upstream within the retry budget, or the lifecycle check failed
    | FinishJob
    | Close

  function SizeOf(f: Frame): nat {
    match f
    case Text(units) => Utf8Length(units)
    case Binary(n) => n
  }

  /** The size the message listener computes: a string longer than the room left is not measured. */
  function Measured(f: Frame, remaining: int): nat {
    match f
    case Text(units) => if |units| > remaining then |units| else Utf8Length(units)
    case Binary(n) => n
  }

  function CloseStep(s: State): State {
    if s.closed then s
    else s.(closed := true, queue := [], bytes := 0, gauge := s.gauge - |s.queue|)
  }

  function ReceiveStep(s: State, f: Frame): State {
    if s.closed then s
    else if |s.queue| >= s.maxMessages then CloseStep(s)
    else
      var remaining := MAX_BUFFERED_CLIENT_BYTES - s.bytes;
      var size := Measured(f, remaining);
      if size > remaining then CloseStep(s)
      else s.(
        received := s.received + [f],
        queue := s.queue + [Message(|s.received|, size)],
        bytes := s.bytes + size,
        gauge := s.gauge + 1)
  }

  /** The first send of the current job's frame. */
  function SendStep(s: State, ok: bool): State {
    if s.closed || s.job >= |s.received| || s.phase != Waiting then s
    else if ok then s.(phase := Sent, sent := s.sent + [s.job])
    else if s.reconnectDisabled then CloseStep(s)
    else s.(phase := Retrying)
  }

  /** The second and last send, on a reconnected upstream. */
  function ResendStep(s: State, ok: bool): State {
    if s.closed || s.phase != Retrying then s
    else if ok then s.(phase := Sent, sent := s.sent + [s.job])
    else CloseStep(s)
  }

  function GiveUpStep(s: State): State {
    if s.job >= |s.received| || s.phase == Sent then s else CloseStep(s)
  }

  /** The job's finally: release the frame if it is still queued. A job ends sent, or after the close. */
  function FinishStep(s: State): State {
    if s.job >= |s.received| || (!s.closed && s.phase != Sent) then s
    else
      var t := s.(job := s.job + 1, phase := Waiting);
      if s.queue != [] && s.queue[0].index == s.job
      then t.(queue := s.queue[1..], bytes := s.bytes - s.queue[0].bytes, gauge := s.gauge - 1) else t
  }

  function Step(s: State, e: Event): State {
    match e
    case Receive(f) => ReceiveStep(s, f)
    case Send(ok) => SendStep(s, ok)
    case Resend(ok) => ResendStep(s, ok)
    case GiveUp => GiveUpStep(s)
    case FinishJob => FinishStep(s)
    case Close => CloseStep(s)
  }

  function Run(s: State, es: seq<Event>): State
    decreases |es|
  {
    if es == [] then s else Run(Step(s, es[0]), es[1..])
  }

  // ---- The length shortcut ----

  /** Measuring only what could fit gives the same verdict as measuring everything, and the true size when
      the frame is accepted. */
  lemma ShortcutIsExact(f: Frame, remaining: int)
    ensures Measured(f, remaining) > remaining <==> SizeOf(f) > remaining
    ensures Measured(f, remaining) <= remaining ==> Measured(f, remaining) == SizeOf(f)
  {
    if f.Text? { AtLeastUnits(f.units); }
  }

  // ---- Accounting and order ----

  function Total(queue: seq<Message>): nat {
    if queue == [] then 0 else queue[0].bytes + Total(queue[1..])
  }

  lemma {:induction false} TotalAppend(queue: seq<Message>, m: Message)
    ensures Total(queue + [m]) == Total(queue) + m.bytes
  {
    if queue == [] {
      assert [m][1..] == [];
    } else {
      assert (queue + [m])[1..] == queue[1..] + [m];
      TotalAppend(queue[1..], m);
    }
  }

  /** The frames from `from` on, as queued. */
  function Waits(received: seq<Frame>, from: nat): seq<Message>
    requires from <= |received|
  {
    seq(|received| - from, i requires 0 <= i < |received| - from => Message(from + i, SizeOf(received[from + i])))
  }

  function FirstIndices(n: nat): seq<nat> {
    seq(n, i requires 0 <= i => i)
  }

  predicate Accounted(s: State) {
    && s.bytes == Total(s.queue) && s.bytes <= MAX_BUFFERED_CLIENT_BYTES
    && |s.queue| <= s.maxMessages && s.gauge == |s.queue|
    && (s.closed ==> s.queue == [])
  }

  predicate Ordered(s: State) {
    && s.job <= |s.received| && s.sent == FirstIndices(|s.sent|) && |s.sent| <= |s.received|
    && (s.phase == Sent || s.phase == Retrying ==> s.job < |s.received|)
    && (!s.closed ==> s.queue == Waits(s.received, s.job) && |s.sent| == s.job + if s.phase == Sent then 1 else 0)
  }

  lemma ReceiveKept(s: State, f: Frame)
    requires Accounted(s) && Ordered(s)
    ensures Accounted(ReceiveStep(s, f)) && Ordered(ReceiveStep(s, f))
  {
    var remaining := MAX_BUFFERED_CLIENT_BYTES - s.bytes;
    ShortcutIsExact(f, remaining);
    TotalAppend(s.queue, Message(|s.received|, Measured(f, remaining)));
    if !s.closed {
      assert Waits(s.received + [f], s.job) == Waits(s.received, s.job) + [Message(|s.received|, SizeOf(f))];
    }
  }

  lemma FinishKept(s: State)
    requires Accounted(s) && Ordered(s)
    ensures Accounted(FinishStep(s)) && Ordered(FinishStep(s))
  {
    if !s.closed && s.job < |s.received| {
      assert Waits(s.received, s.job)[0] == Message(s.job, SizeOf(s.received[s.job]));
      assert Waits(s.received, s.job)[1..] == Waits(s.received, s.job + 1);
    }
  }

  lemma SentNext(n: nat)
    ensures FirstIndices(n) + [n] == FirstIndices(n + 1)
  {
  }

  lemma Kept(s: State, e: Event)
    requires Accounted(s) && Ordered(s)
    ensures Accounted(Step(s, e)) && Ordered(Step(s, e))
  {
    match e
    case Receive(f) => ReceiveKept(s, f);
    case FinishJob => FinishKept(s);
    case Send(_) => SentNext(|s.sent|);
    case Resend(_) => SentNext(|s.sent|);
    case _ =>
  }

  function Opened(maxMessages: nat, reconnectDisabled: bool): State {
    State(maxMessages, reconnectDisabled, [], [], 0, 0, false, 0, Waiting, [])
  }

  lemma {:induction false} KeptAlong(s: State, es: seq<Event>)
    requires Accounted(s) && Ordered(s)
    ensures Accounted(Run(s, es)) && Ordered(Run(s, es)) && Run(s, es).maxMessages == s.maxMessages
    decreases |es|
  {
    if es != [] {
      Kept(s, es[0]);
      KeptAlong(Step(s, es[0]), es[1..]);
    }
  }

  /** Proxy queue: on every run, across failed sends, reconnects and retries, the frames sent upstream are the
      first frames received, each once and in order; the byte count is the sum over the queue and stays
      within 32 MiB and the count cap; and after a close nothing is queued and the gauge is back to zero. */
  lemma SentFramesAreAPrefix(maxMessages: nat, reconnectDisabled: bool, es: seq<Event>)
    ensures var t := Run(Opened(maxMessages, reconnectDisabled), es);
      && |t.sent| <= |t.received| && t.sent == FirstIndices(|t.sent|)
      && t.bytes == Total(t.queue) && t.bytes <= MAX_BUFFERED_CLIENT_BYTES
      && |t.queue| <= maxMessages && t.gauge == |t.queue|
      && (t.closed ==> t.gauge == 0 && t.bytes == 0)
      && (!t.closed && t.queue == [] ==> |t.sent| == |t.received|)
  {
    assert Waits([], 0) == [];
    KeptAlong(Opened(maxMessages, reconnectDisabled), es);
    var t := Run(Opened(maxMessages, reconnectDisabled), es);
    if !t.closed { assert |Waits(t.received, t.job)| == |t.received| - t.job; }
  }

  // ---- The proxy's closure state ----

  class Proxy {
    const maxBufferedClientMessages: nat
    const reconnectDisabled: bool
    var received: seq<Frame>
    var queuedClientMessages: seq<Message>
    var queuedClientBytes: int
    var gauge: int
    var downstreamClosed: bool
    var job: nat
    var phase: Phase
    var sent: seq<nat>

    /** The byte count and the gauge match the queue, and what was sent is what came first. */
    ghost predicate Valid()
      reads this
    {
      Accounted(View()) && Ordered(View())
    }

    constructor (maxMessages: nat, disabled: bool)
      ensures Valid() && View() == Opened(maxMessages, disabled)
    {
      maxBufferedClientMessages, reconnectDisabled := maxMessages, disabled;
      received, queuedClientMessages, queuedClientBytes, gauge := [], [], 0, 0;
      downstreamClosed, job, phase, sent := false, 0, Waiting, [];
      new;
      assert Waits([], 0) == [];
    }

    ghost function View(): State
      reads this
    {
      State(maxBufferedClientMessages, reconnectDisabled, received, queuedClientMessages, queuedClientBytes, gauge,
            downstreamClosed, job, phase, sent)
    }

    /** markDownstreamClosed and clearQueuedClientMessages: nothing stays queued or counted. */
    method MarkDownstreamClosed()
      requires Valid()
      modifies this`downstreamClosed, this`queuedClientMessages, this`queuedClientBytes, this`gauge
      ensures Valid() && View() == Step(old(View()), Close)
      ensures downstreamClosed && queuedClientMessages == [] && queuedClientBytes == 0 && gauge == 0
    {
      Kept(View(), Close);
      if downstreamClosed { return; }
      downstreamClosed := true;
      gauge := gauge - |queuedClientMessages|;
      queuedClientMessages, queuedClientBytes := [], 0;
    }

    /** The frame is queued last with its size in bytes, or the socket is closed: exactly when the queue is full or
        the frame's UTF-8 or binary size does not fit the room left. */
    method OnClientMessage(frame: Frame)
      requires Valid()
      modifies this
      ensures Valid() && View() == Step(old(View()), Receive(frame))
      ensures !old(downstreamClosed) ==>
        (downstreamClosed <==>
           || |old(queuedClientMessages)| >= maxBufferedClientMessages
           || SizeOf(frame) > MAX_BUFFERED_CLIENT_BYTES - old(queuedClientBytes))
      ensures !downstreamClosed ==>
        queuedClientMessages == old(queuedClientMessages) + [Message(|old(received)|, SizeOf(frame))]
    {
      hide Accounted, Ordered, SizeOf, SendStep, ResendStep, GiveUpStep, FinishStep;
      Kept(View(), Receive(frame));
      ShortcutIsExact(frame, MAX_BUFFERED_CLIENT_BYTES - queuedClientBytes);
      if downstreamClosed { return; }
      if |queuedClientMessages| >= maxBufferedClientMessages {
        MarkDownstreamClosed();
        return;
      }
      var remaining := MAX_BUFFERED_CLIENT_BYTES - queuedClientBytes;
      var size;
      match frame {
        case Text(units) =>
          if |units| > remaining { size := |units|; } else { size := Utf8ByteLength(units); }
        case Binary(n) => size := n;
      }
      if size > remaining {
        MarkDownstreamClosed();
        return;
      }
      queuedClientMessages := queuedClientMessages + [Message(|received|, size)];
      received := received + [frame];
      queuedClientBytes, gauge := queuedClientBytes + size, gauge + 1;
    }

    /** The send and, after a reconnect, the one retry of sendClientMessage: the frame sent is the first unsent. */
    method TrySend(ok: bool)
      requires Valid()
      modifies this
      ensures Valid() && View() == Step(old(View()), if old(phase) == Retrying then Resend(ok) else Send(ok))
      ensures sent == old(sent) || sent == old(sent) + [|old(sent)|]
      ensures sent != old(sent) ==> ok && queuedClientMessages != [] && queuedClientMessages[0].index == |old(sent)|
    {
      Kept(View(), if phase == Retrying then Resend(ok) else Send(ok));
      if downstreamClosed { return; }
      if phase != Retrying && (job >= |received| || phase != Waiting) { return; }
      if ok {
        assert Waits(received, job)[0].index == job;
        sent, phase := sent + [job], Sent;
      } else if phase == Retrying || reconnectDisabled {
        MarkDownstreamClosed();
      } else {
        phase := Retrying;
      }
    }

    /** The job's finally and releaseClientMessage: an open socket's frame leaves the queue only after it was sent. */
    method ReleaseClientMessage()
      requires Valid()
      modifies this
      ensures Valid() && View() == Step(old(View()), FinishJob)
      ensures !downstreamClosed && queuedClientMessages != old(queuedClientMessages) ==>
        && old(queuedClientMessages) != [] && queuedClientMessages == old(queuedClientMessages)[1..]
        && old(queuedClientMessages)[0].index in sent
    {
      Kept(View(), FinishJob);
      if job >= |received| || (!downstreamClosed && phase != Sent) { return; }
      if queuedClientMessages != [] && queuedClientMessages[0].index == job {
        assert !downstreamClosed ==> sent[job] == job;
        queuedClientBytes, gauge := queuedClientBytes - queuedClientMessages[0].bytes, gauge - 1;
        queuedClientMessages := queuedClientMessages[1..];
      }
      job, phase := job + 1, Waiting;
    }
  }
}
