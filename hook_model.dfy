/** The hook as a state machine over values: the event a log entry becomes, the state
    the hook and its background loop keep between steps, one step for each thing that
    can happen next (an entry is fired, the loop takes an event off the channel, the
    send timer ticks, sending is switched on or off), and runs of arbitrary step
    sequences. The class in CloudWatchHook is proved to follow these steps; the lemmas
    here say what holds over every interleaving of them. */
module HookModel {
  import opened Outcomes

  /** Capacity of the event channel (`eventBufferSize`). */
  const EVENT_BUFFER_SIZE: nat := 100

  /** `time.Nanosecond` and `time.Millisecond`, as counts of nanoseconds. */
  const NANOSECOND: int := 1
  const MILLISECOND: int := 1_000_000

  const MIN_INT64: int := -0x8000_0000_0000_0000
  const MAX_INT64: int := 0x7FFF_FFFF_FFFF_FFFF

  /** Go's `int64`. */
  type Int64 = x: int | MIN_INT64 <= x <= MAX_INT64

  /** A CloudWatch `InputLogEvent`: the formatted entry and its time in milliseconds. */
  datatype LogEvent = LogEvent(message: string, timestamp: Int64)

  /** The arguments of one `PutLogEvents` call. */
  datatype PutRequest = PutRequest(groupName: string, streamName: string,
                                   logEvents: seq<LogEvent>, sequenceToken: Option<string>)

  /** Everything the hook and its loop keep between steps: the buffered channel, the
      loop's pending batch, the current sequence token and the sending flag. */
  datatype HookState = HookState(groupName: string, streamName: string,
                                 queue: seq<LogEvent>, batch: seq<LogEvent>,
                                 token: Option<string>, sending: bool)

  /** What can happen next. `Fire`, `Start` and `Stop` come from the application's
      goroutines; `Receive` and `Tick` are the two branches of the loop's `select`.
      `Fire` carries the outcome of formatting the entry and the clock reading; `Tick`
      carries the outcome `PutLogEvents` gives if it is called (a next token, possibly
      absent, or an error). */
  datatype Action =
    | Fire(formatted: Result<string>, nowNs: Int64)
    | Receive
    | Tick(put: Result<Option<string>>)
    | Start
    | Stop

  /** The channel never holds more than its capacity. */
  predicate Bounded(s: HookState) {
    |s.queue| <= EVENT_BUFFER_SIZE
  }

  /** Nanoseconds to milliseconds as Go computes `int64(time.Nanosecond) * ns /
      int64(time.Millisecond)`: integer division truncating toward zero, so that a
      negative time rounds up, not down. */
  function MillisFromNanos(ns: Int64): (ms: Int64)
    ensures 0 <= ns ==> 0 <= ms && ms * MILLISECOND <= ns < ms * MILLISECOND + MILLISECOND
    ensures ns < 0 ==> ms <= 0 && ms * MILLISECOND - MILLISECOND < ns <= ms * MILLISECOND
  {
    var scaled := NANOSECOND * ns;
    if scaled >= 0 then scaled / MILLISECOND else -((-scaled) / MILLISECOND)
  }

  /** A later clock reading never gets an earlier millisecond timestamp. */
  lemma MillisMonotonic(ns1: Int64, ns2: Int64)
    requires ns1 <= ns2
    ensures MillisFromNanos(ns1) <= MillisFromNanos(ns2)
  {
  }

  /** The event `Fire` builds from a formatted message and a clock reading. */
  function NewEvent(message: string, nowNs: Int64): LogEvent {
    LogEvent(message, MillisFromNanos(nowNs))
  }

  /** The decision `NewHook` takes from what `DescribeLogStreams` returned (an error, or
      the upload sequence token of each stream found) and what `CreateLogStream` would
      return if it were called. */
  datatype InitOutcome = InitOutcome(createIssued: bool, result: Result<Option<string>>)

  function Initialize(describe: Result<seq<Option<string>>>, create: Option<Error>): (r: InitOutcome)
    ensures r.createIssued <==> describe.Success? && |describe.value| == 0
    ensures describe.Failure? ==> r.result == Failure(describe.error)
    ensures describe.Success? && |describe.value| > 0 ==> r.result == Success(describe.value[0])
    ensures r.createIssued ==> r.result == (if create.Some? then Failure(create.value) else Success(None))
    ensures r.result.Failure? <==> describe.Failure? || (r.createIssued && create.Some?)
  {
    match describe
    case Failure(e) => InitOutcome(false, Failure(e))
    case Success(tokens) =>
      if |tokens| > 0 then InitOutcome(false, Success(tokens[0]))
      else match create
        case Some(e) => InitOutcome(true, Failure(e))
        case None => InitOutcome(true, Success(None))
  }

  /** The state a successfully constructed hook starts in: empty channel and batch,
      sending on. */
  function Initial(groupName: string, streamName: string, token: Option<string>): HookState {
    HookState(groupName, streamName, [], [], token, true)
  }

  /** The `PutLogEvents` call a tick issues in state `s`, if any. */
  function TickRequest(s: HookState): Option<PutRequest> {
    if s.sending && |s.batch| > 0 then Some(PutRequest(s.groupName, s.streamName, s.batch, s.token))
    else None
  }

  /** What the step puts into the channel. */
  function AcceptedBy(s: HookState, a: Action): seq<LogEvent> {
    if a.Fire? && a.formatted.Success? && |s.queue| < EVENT_BUFFER_SIZE
    then [NewEvent(a.formatted.value, a.nowNs)] else []
  }

  /** The `PutLogEvents` call the step issues, if any. */
  function RequestBy(s: HookState, a: Action): Option<PutRequest> {
    if a.Tick? then TickRequest(s) else None
  }

  /** The events the step hands to a `PutLogEvents` call that returns no error. */
  function DeliveredBy(s: HookState, a: Action): seq<LogEvent> {
    if RequestBy(s, a).Some? && a.put.Success? then s.batch else []
  }

  /** One step of the hook. A `Receive` while the channel is empty is a branch of the
      `select` that is not ready, and changes nothing. The contract is the step's
      conservation law: what was buffered or pending, plus what the step accepted, is
      what it delivered followed by what is now pending and buffered, in that order. */
  function Step(s: HookState, a: Action): (r: HookState)
    ensures Bounded(s) ==> Bounded(r)
    ensures DeliveredBy(s, a) + r.batch + r.queue == s.batch + s.queue + AcceptedBy(s, a)
    ensures r.groupName == s.groupName && r.streamName == s.streamName
  {
    match a
    case Fire(formatted, nowNs) =>
      if formatted.Success? && |s.queue| < EVENT_BUFFER_SIZE
      then s.(queue := s.queue + [NewEvent(formatted.value, nowNs)])
      else s
    case Receive =>
      if |s.queue| > 0 then s.(queue := s.queue[1..], batch := s.batch + [s.queue[0]]) else s
    case Tick(put) =>
      if TickRequest(s).Some? && put.Success? then s.(token := put.value, batch := []) else s
    case Start => s.(sending := true)
    case Stop => s.(sending := false)
  }

  /** The state after the steps of `actions`, in order. */
  function Run(s: HookState, actions: seq<Action>): HookState
    decreases |actions|
  {
    if actions == [] then s else Run(Step(s, actions[0]), actions[1..])
  }

  /** Every event put into the channel during `actions`, in the order accepted. */
  function Accepted(s: HookState, actions: seq<Action>): seq<LogEvent>
    decreases |actions|
  {
    if actions == [] then []
    else AcceptedBy(s, actions[0]) + Accepted(Step(s, actions[0]), actions[1..])
  }

  /** Every event handed to a `PutLogEvents` call that returned no error during
      `actions`, in the order appended. */
  function Delivered(s: HookState, actions: seq<Action>): seq<LogEvent>
    decreases |actions|
  {
    if actions == [] then []
    else DeliveredBy(s, actions[0]) + Delivered(Step(s, actions[0]), actions[1..])
  }

  /** Every `PutLogEvents` call issued during `actions`, in order. */
  function Requests(s: HookState, actions: seq<Action>): seq<PutRequest>
    decreases |actions|
  {
    if actions == [] then []
    else
      var rest := Requests(Step(s, actions[0]), actions[1..]);
      match RequestBy(s, actions[0])
      case Some(req) => [req] + rest
      case None => rest
  }

  /** However the steps interleave, the channel never exceeds its capacity. */
  lemma {:induction false} RunKeepsBound(s: HookState, actions: seq<Action>)
    requires Bounded(s)
    ensures Bounded(Run(s, actions))
    decreases |actions|
  {
    if actions != [] {
      RunKeepsBound(Step(s, actions[0]), actions[1..]);
    }
  }

  /** End-to-end FIFO: over any interleaving, what CloudWatch received followed by what
      is still pending and buffered is exactly what was pending and buffered at the start
      followed by every event accepted since, in firing order. No accepted event is lost,
      duplicated or reordered. */
  lemma {:induction false} RunConservesEvents(s: HookState, actions: seq<Action>)
    ensures Delivered(s, actions) + Run(s, actions).batch + Run(s, actions).queue
            == s.batch + s.queue + Accepted(s, actions)
    decreases |actions|
  {
    if actions != [] {
      var s1, rest := Step(s, actions[0]), actions[1..];
      var t := Run(s1, rest);
      RunConservesEvents(s1, rest);
      UnfoldRun(s, actions);
      StepConserves(s, actions[0]);
      Splice(Delivered(s, actions), DeliveredBy(s, actions[0]), Delivered(s1, rest),
             s1.batch + s1.queue, t.batch, t.queue, s.batch + s.queue,
             Accepted(s, actions), AcceptedBy(s, actions[0]), Accepted(s1, rest));
    }
  }

  /** The first step of a non-empty run, taken apart from the rest. */
  lemma UnfoldRun(s: HookState, actions: seq<Action>)
    requires actions != []
    ensures Run(s, actions) == Run(Step(s, actions[0]), actions[1..])
    ensures Delivered(s, actions) == DeliveredBy(s, actions[0]) + Delivered(Step(s, actions[0]), actions[1..])
    ensures Accepted(s, actions) == AcceptedBy(s, actions[0]) + Accepted(Step(s, actions[0]), actions[1..])
  {
  }

  /** One step's conservation law, with its pending and buffered events grouped. */
  lemma StepConserves(s: HookState, a: Action)
    ensures DeliveredBy(s, a) + (Step(s, a).batch + Step(s, a).queue) == (s.batch + s.queue) + AcceptedBy(s, a)
  {
  }

  /** Splicing two conservation equations: if what one step delivers and leaves
      pending (`d0 + m`) is what it started with and accepted (`p + a0`), and the
      rest of the run turns `m` into `d1 + b + q` while accepting `a1`, then the
      whole run delivers `d0 + d1`, leaves `b + q`, and accepts `a0 + a1`. */
  lemma Splice<T>(d: seq<T>, d0: seq<T>, d1: seq<T>, m: seq<T>, b: seq<T>, q: seq<T>,
                  p: seq<T>, a: seq<T>, a0: seq<T>, a1: seq<T>)
    requires d == d0 + d1 && a == a0 + a1
    requires d0 + m == p + a0
    requires d1 + b + q == m + a1
    ensures d + b + q == p + a
  {
    calc {
      d + b + q;
      d0 + (d1 + b + q);
      d0 + (m + a1);
      (d0 + m) + a1;
      (p + a0) + a1;
    }
  }

  /** The steps of `actions` are all `Fire`s of successfully formatted entries. */
  predicate AllFormattedFires(actions: seq<Action>) {
    forall i :: 0 <= i < |actions| ==> actions[i].Fire? && actions[i].formatted.Success?
  }

  /** The events a run of formatted `Fire`s would build, one per step. */
  function FiredEvents(actions: seq<Action>): (events: seq<LogEvent>)
    requires AllFormattedFires(actions)
    ensures |events| == |actions|
    decreases |actions|
  {
    if actions == [] then []
    else [NewEvent(actions[0].formatted.value, actions[0].nowNs)] + FiredEvents(actions[1..])
  }

  function Min(a: int, b: int): int {
    if a <= b then a else b
  }

  /** The drop law: firing entries with nobody draining the channel keeps the earliest of
      them, up to the capacity, and drops the rest; batch, token and flag are untouched. */
  lemma {:induction false} FireDropLaw(s: HookState, actions: seq<Action>)
    requires Bounded(s) && AllFormattedFires(actions)
    ensures var n := Min(EVENT_BUFFER_SIZE, |s.queue| + |actions|);
      Run(s, actions) == s.(queue := (s.queue + FiredEvents(actions))[..n])
    decreases |actions|
  {
    if actions == [] {
      assert s.queue[..|s.queue|] == s.queue;
    } else {
      var a, rest := actions[0], actions[1..];
      var s1 := Step(s, a);
      assert AllFormattedFires(rest) by {
        forall i | 0 <= i < |rest| ensures rest[i].Fire? && rest[i].formatted.Success? {
          assert rest[i] == actions[i + 1];
        }
      }
      FireDropLaw(s1, rest);
      UnfoldRun(s, actions);
      var e := NewEvent(a.formatted.value, a.nowNs);
      var later := FiredEvents(rest);
      assert FiredEvents(actions) == [e] + later;
      if |s.queue| < EVENT_BUFFER_SIZE {
        assert s1 == s.(queue := s.queue + [e]);
        assert s1.queue + later == s.queue + ([e] + later);
      } else {
        assert s1 == s;
        var n := EVENT_BUFFER_SIZE;
        assert (s.queue + later)[..n] == s.queue by {
          assert |s.queue| == n;
        }
        assert (s.queue + ([e] + later))[..n] == s.queue by {
          assert |s.queue| == n;
        }
      }
    }
  }

  /** Without a `PutLogEvents` call, nothing is delivered and the token stays put. */
  lemma {:induction false} NoRequestKeepsToken(s: HookState, actions: seq<Action>)
    requires Requests(s, actions) == []
    ensures Delivered(s, actions) == []
    ensures Run(s, actions).token == s.token
    decreases |actions|
  {
    if actions != [] {
      var s1 := Step(s, actions[0]);
      assert RequestBy(s, actions[0]).None?;
      NoRequestKeepsToken(s1, actions[1..]);
    }
  }

  /** The gate: while sending is off and nobody switches it on, no call is issued,
      whatever ticks and events arrive; so nothing is delivered and the token is kept. */
  lemma {:induction false} PausedIssuesNothing(s: HookState, actions: seq<Action>)
    requires !s.sending
    requires forall i :: 0 <= i < |actions| ==> !actions[i].Start?
    ensures Requests(s, actions) == []
    ensures Delivered(s, actions) == []
    ensures !Run(s, actions).sending && Run(s, actions).token == s.token
    decreases |actions|
  {
    if actions != [] {
      var s1, rest := Step(s, actions[0]), actions[1..];
      assert !actions[0].Start?;
      assert forall i :: 0 <= i < |rest| ==> !rest[i].Start? by {
        forall i | 0 <= i < |rest| ensures !rest[i].Start? {
          assert rest[i] == actions[i + 1];
        }
      }
      PausedIssuesNothing(s1, rest);
    }
    NoRequestKeepsToken(s, actions);
  }

  /** The steps of `actions` are all ticks whose call, if issued, fails. */
  predicate AllFailedTicks(actions: seq<Action>) {
    forall i :: 0 <= i < |actions| ==> actions[i].Tick? && actions[i].put.Failure?
  }

  /** Retention: however many ticks fail in a row, the batch and token are kept whole,
      and every tick that issues a call resends the same batch with the same token. */
  lemma {:induction false} FailedTicksRetain(s: HookState, actions: seq<Action>)
    requires AllFailedTicks(actions)
    ensures Run(s, actions) == s
    ensures forall i :: 0 <= i < |Requests(s, actions)| ==> Some(Requests(s, actions)[i]) == TickRequest(s)
    decreases |actions|
  {
    if actions != [] {
      var rest := actions[1..];
      assert AllFailedTicks(rest) by {
        forall i | 0 <= i < |rest| ensures rest[i].Tick? && rest[i].put.Failure? {
          assert rest[i] == actions[i + 1];
        }
      }
      assert Step(s, actions[0]) == s;
      FailedTicksRetain(s, rest);
    }
  }

  /** Switching sending on or off is idempotent. */
  lemma GateIdempotent(s: HookState)
    ensures Step(Step(s, Start), Start) == Step(s, Start)
    ensures Step(Step(s, Stop), Stop) == Step(s, Stop)
  {
  }

  /** Resuming: the first tick after sending is switched on sends the whole pending batch
      with the current token, and on success adopts the returned token and empties it. */
  lemma ResumeFlushesBatch(s: HookState, next: Option<string>)
    requires |s.batch| > 0
    ensures var on := Step(s, Start);
      TickRequest(on) == Some(PutRequest(s.groupName, s.streamName, s.batch, s.token)) &&
      Step(on, Tick(Success(next))) == s.(sending := true, batch := [], token := next)
  {
  }
}
