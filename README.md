# logrus-cloudwatchlogs-async: the asynchronous hook, modelled in Dafny

The Go package ships logrus log entries to an AWS CloudWatch Logs stream without
blocking the caller. `Hook.Fire` formats an entry, stamps it with the current time in
milliseconds and pushes it into a buffered channel that holds 100 events. If the channel
is full, the event is dropped. A background loop (`runLoop`) does one of two things on
each turn:
- it takes one event off the channel and appends it to a pending batch;
- on a 200 ms tick, if sending is switched on and the batch is not empty, it sends the
  whole batch with `PutLogEvents` under the current sequence token.

A successful send adopts the next token that CloudWatch returns and empties the batch. A
failed send keeps both the batch and the token, so the next tick sends the batch again.
`NewHook` looks the stream up first. It adopts the first stream's upload token, or
creates the stream when none is found. It fails without starting the loop if either AWS
call fails. `StartSendingEvents` and `StopSendingEvents` switch sending on and off.

The project has three modules:

- `Outcomes` (outcomes.dfy) holds `Option` for Go's nil-able `*string` and `Error` for
  Go's `error`. It also holds `Result` for a `(value, err)` return.
- `HookModel` (hook_model.dfy) holds the hook as a state machine over values:
  - `LogEvent` and `PutRequest`;
  - `HookState`, which holds the channel, the pending batch, the token and the flag;
  - one `Step` for each thing that can happen next;
  - `Run` over any sequence of steps, with `Accepted`, `Delivered` and `Requests` to
    record what a run put into the channel, handed to CloudWatch and asked of it.

  The lemmas in this module state what holds over every interleaving of the steps.
- `CloudWatchHook` (hook.dfy) holds the class `Hook`. It has `seq` fields for the
  channel and for the loop's batch, and fields for the token and the flag. The methods
  update those fields in place. `Fire`, `Receive`, `Tick`, `StartSendingEvents` and
  `StopSendingEvents` are each proved to take the step that `HookModel.Step` describes.
  `RunLoop` runs any finite sequence of the loop's `select` choices and is proved to
  reach the state `HookModel.Run` gives. `NewHook` is proved to decide as
  `HookModel.Initialize` does, and the constructor to start in `HookModel.Initial`.
  `SendAndAdopt`, `FailAndRetry`, `PausedTick` and `ResumedTick` are clients walking
  through a send, a failure and its retry, a pause, and a resume.

The goroutine and its `select` become an external choice. The caller decides which step
comes next: `Fire`, `Receive`, `Tick`, `StartSendingEvents` or `StopSendingEvents`.
Results of the AWS calls, of entry formatting and of the clock come in as parameters.

Three details of hook.go that the model keeps:
- Each `Receive` step moves one event from the channel to the end of the batch
  (hook.go:112-113).
- The first stream returned for the stream-name prefix query is adopted
  (hook.go:42, 48-49).
- `Fire` returns nil whether or not the event was queued (hook.go:76-81).

## Model

| member | source | states |
|---|---|---|
| HookModel.MillisFromNanos | hook.go:73-74 | the timestamp is the nanosecond time divided by 1,000,000, truncated toward zero: for ns >= 0, ms*10^6 <= ns < (ms+1)*10^6; for ns < 0, (ms-1)*10^6 < ns <= ms*10^6 |
| HookModel.MillisMonotonic | hook.go:73-74 | a later clock reading never gives an earlier millisecond timestamp |
| HookModel.Initialize | hook.go:39-58 | construction fails with describe's error if describe fails; with no stream found it issues create and fails with create's error if that fails, otherwise starts with no token; with streams found it adopts the first stream's upload token and issues no create |
| CloudWatchHook.Hook.NewHook | hook.go:28-62 | no hook exists exactly when an error is returned, and the outcome agrees with `Initialize`; a new hook has an empty channel and batch, sending on, and the token `Initialize` chose |
| CloudWatchHook.Hook.constructor | hook.go:29-35 | a fresh hook has an empty channel and batch, sending on, and the given token |
| CloudWatchHook.Hook.Fire | hook.go:65-82 | a formatting error is returned and the channel is unchanged; otherwise nil is returned, and the event {message, ms} is appended when fewer than 100 are queued and dropped when 100 are; nothing else changes |
| CloudWatchHook.Hook.StartSendingEvents | hook.go:96-98 | only the sending flag changes, and it becomes true |
| CloudWatchHook.Hook.StopSendingEvents | hook.go:100-102 | only the sending flag changes, and it becomes false |
| CloudWatchHook.Hook.Receive | hook.go:112-113 | the channel's head moves to the end of the batch; batch ++ channel is unchanged; token and flag are untouched |
| CloudWatchHook.Hook.Tick | hook.go:114-127 | a call is issued exactly when sending is on and the batch is non-empty, with the whole batch and the current token; on success the returned token (possibly absent) is adopted and the batch emptied; on failure or with no call, batch and token are unchanged |
| CloudWatchHook.Hook.RunLoop | hook.go:104-130 | running any finite sequence of the loop's receive and tick choices leaves the hook in the state `Run` gives and keeps the channel within capacity |
| HookModel.Step | hook.go:76-127 | each step keeps the channel within 100 events, and what it delivers followed by the new batch and channel equals the old batch and channel followed by what it accepted |
| HookModel.RunKeepsBound | hook.go:76-79 | over any interleaving of steps the channel never holds more than 100 events |
| HookModel.RunConservesEvents | hook.go:112-126 | over any interleaving, delivered ++ batch ++ channel equals the initial batch ++ channel followed by every accepted event in firing order: nothing is lost, duplicated or reordered between enqueue and CloudWatch |
| HookModel.FireDropLaw | hook.go:76-79 | firing N formatted entries with nothing draining the channel keeps the earliest of them up to capacity, in order, drops the rest, and touches nothing else |
| HookModel.NoRequestKeepsToken | hook.go:115-126 | when no `PutLogEvents` call is issued, nothing is delivered and the token is unchanged |
| HookModel.PausedIssuesNothing | hook.go:115 | while sending is off and is not switched on, no call is issued whatever ticks and events occur, nothing is delivered and the token is kept |
| HookModel.FailedTicksRetain | hook.go:122-126 | any number of failing ticks leaves the state unchanged, and every call they issue resends the same batch with the same token |
| HookModel.GateIdempotent | hook.go:96-102 | switching sending on twice, or off twice, has the same effect as doing it once |
| HookModel.ResumeFlushesBatch | hook.go:115-126 | the first tick after sending is switched on sends the whole pending batch with the current token, and on success adopts the next token and empties the batch |

## Left out

- The AWS calls `DescribeLogStreams`, `CreateLogStream` and `PutLogEvents`, and session
  and config creation (`newCloudWatchService`, the `config` field), are network I/O. Only
  their outcomes are modelled, as method parameters.
- The prefix query of `DescribeLogStreams` is not modelled. The list of returned streams,
  reduced to their upload tokens, is taken as given.
- The goroutine start, `time.Tick` timing and the nondeterministic `select` are
  concurrency and timers. They become an explicit choice of the next step. The loop
  runs forever, but `RunLoop` runs only a finite prefix of its choices.
- The unsynchronised access to `isSendingEvents` from two goroutines, and the fact that
  producers keep enqueueing while a `PutLogEvents` call is in flight, are not modelled.
  Each step is atomic here.
- `time.Now()` and logrus `entry.String()` become parameters: a clock reading in
  nanoseconds and a formatting outcome.
- `Levels` returns a constant list of six logrus levels, Panic through Debug, without
  Trace. It has no behaviour beyond its literal contents.
- A `PutLogEvents` response without error can still report single events as rejected
  (too old, too new, expired). The code reads only `NextSequenceToken` from it
  (hook.go:123-125), so `Delivered` counts every event handed to such a call.
- Every failure of `PutLogEvents` is treated the same way. A stale sequence token is
  retried forever with the same token, as in the code.
