/** The CloudWatch Logs hook for logrus as an object whose fields its methods update in
    place: the buffered event channel, the background loop's pending batch, the current
    sequence token and the sending flag. The loop goroutine is split into its two
    `select` branches, `Receive` and `Tick`, and `RunLoop` runs any finite sequence of
    the branches; which branch comes next is the caller's choice. `Fire`, `Receive`,
    `Tick`, `StartSendingEvents` and `StopSendingEvents` are each proved to take the step
    `HookModel.Step` describes, `RunLoop` to reach the state `HookModel.Run` gives, and
    `NewHook` to decide as `HookModel.Initialize` does. */
module CloudWatchHook {
  import opened Outcomes
  import opened HookModel

  class Hook {
    const groupName: string
    const streamName: string
    /** The buffered channel `eventChannel`, oldest event first. */
    var eventChannel: seq<LogEvent>
    /** The loop's local `events` slice: received, not yet appended to the stream. */
    var events: seq<LogEvent>
    var sequenceToken: Option<string>
    var isSendingEvents: bool

    /** The channel never holds more than its capacity. */
    ghost predicate Valid()
      reads this
    {
      |eventChannel| <= EVENT_BUFFER_SIZE
    }

    /** The hook's state as a value. */
    function State(): HookState
      reads this
    {
      HookState(groupName, streamName, eventChannel, events, sequenceToken, isSendingEvents)
    }

    /** A hook whose stream is known to exist, with `token` as its sequence token. */
    constructor (groupName: string, streamName: string, token: Option<string>)
      ensures Valid()
      ensures State() == Initial(groupName, streamName, token)
    {
      this.groupName := groupName;
      this.streamName := streamName;
      eventChannel := [];
      events := [];
      sequenceToken := token;
      isSendingEvents := true;
    }

    /** `NewHook`: look the stream up; adopt the first stream's upload token if one was
        found, otherwise create the stream. `describe` is what `DescribeLogStreams`
        returned (an error, or the upload token of each stream found), `create` what
        `CreateLogStream` returns when called. On an error no hook exists (and so no loop
        runs) and the error is returned. */
    static method NewHook(groupName: string, streamName: string,
                          describe: Result<seq<Option<string>>>, create: Option<Error>)
      returns (hook: Hook?, err: Option<Error>)
      ensures hook == null <==> err.Some?
      ensures Initialize(describe, create).result == (if hook == null then Failure(err.value)
                                                       else Success(hook.sequenceToken))
      ensures hook != null ==>
                fresh(hook) && hook.Valid() &&
                hook.State() == Initial(groupName, streamName, hook.sequenceToken)
    {
      var token: Option<string> := None;
      match describe {
        case Failure(e) =>
          return null, Some(e);
        case Success(streamTokens) =>
          if |streamTokens| > 0 {
            token := streamTokens[0];
          } else if create.Some? {
            return null, Some(create.value);
          }
      }
      hook := new Hook(groupName, streamName, token);
      err := None;
    }

    /** `Fire`: a formatting error is returned and nothing is queued; otherwise the
        event is queued if the channel has room and silently dropped if it is full,
        and nil is returned either way. */
    method Fire(formatted: Result<string>, nowNs: Int64) returns (err: Option<Error>)
      requires Valid()
      modifies this`eventChannel
      ensures Valid()
      ensures formatted.Failure? ==> err == Some(formatted.error) && eventChannel == old(eventChannel)
      ensures formatted.Success? ==> err == None
      ensures formatted.Success? && |old(eventChannel)| < EVENT_BUFFER_SIZE ==>
                eventChannel == old(eventChannel) + [LogEvent(formatted.value, MillisFromNanos(nowNs))]
      ensures formatted.Success? && |old(eventChannel)| >= EVENT_BUFFER_SIZE ==>
                eventChannel == old(eventChannel)
      ensures State() == Step(old(State()), Action.Fire(formatted, nowNs))
    {
      match formatted {
        case Failure(e) =>
          return Some(e);
        case Success(message) =>
          var event := LogEvent(message, MillisFromNanos(nowNs));
          if |eventChannel| < EVENT_BUFFER_SIZE {
            eventChannel := eventChannel + [event];
          }
          return None;
      }
    }

    method StartSendingEvents()
      requires Valid()
      modifies this`isSendingEvents
      ensures Valid()
      ensures isSendingEvents
      ensures State() == Step(old(State()), Action.Start)
    {
      isSendingEvents := true;
    }

    method StopSendingEvents()
      requires Valid()
      modifies this`isSendingEvents
      ensures Valid()
      ensures !isSendingEvents
      ensures State() == Step(old(State()), Action.Stop)
    {
      isSendingEvents := false;
    }

    /** The loop's receive branch, taken only when the channel holds an event: the
        oldest event moves to the end of the pending batch. */
    method Receive()
      requires Valid()
      requires |eventChannel| > 0
      modifies this`eventChannel, this`events
      ensures Valid()
      ensures eventChannel == old(eventChannel)[1..]
      ensures events == old(events) + [old(eventChannel)[0]]
      ensures events + eventChannel == old(events) + old(eventChannel)
      ensures State() == Step(old(State()), Action.Receive)
    {
      var event := eventChannel[0];
      eventChannel := eventChannel[1..];
      events := events + [event];
    }

    /** The loop's tick branch. With sending on and a non-empty batch, the whole batch is
        sent with the current token (`request`); `put` is what `PutLogEvents` returns.
        On success the returned token is adopted and the batch emptied; on failure, or
        when no call is issued, nothing changes. */
    method Tick(put: Result<Option<string>>) returns (request: Option<PutRequest>)
      requires Valid()
      modifies this`events, this`sequenceToken
      ensures Valid()
      ensures request == if old(isSendingEvents) && |old(events)| > 0
                         then Some(PutRequest(groupName, streamName, old(events), old(sequenceToken)))
                         else None
      ensures request.Some? && put.Success? ==> sequenceToken == put.value && events == []
      ensures request.None? || put.Failure? ==>
        sequenceToken == old(sequenceToken) && events == old(events)
      ensures State() == Step(old(State()), Action.Tick(put))
    {
      request := None;
      if isSendingEvents && |events| > 0 {
        request := Some(PutRequest(groupName, streamName, events, sequenceToken));
        if put.Success? {
          sequenceToken := put.value;
          events := [];
        }
      }
    }

    /** The loop `runLoop`, over a finite sequence of its `select` choices: a receive
        whose channel is empty is not ready and is skipped. */
    method RunLoop(choices: seq<Action>)
      requires Valid()
      requires forall i :: 0 <= i < |choices| ==> choices[i].Receive? || choices[i].Tick?
      modifies this`eventChannel, this`events, this`sequenceToken
      ensures Valid()
      ensures State() == Run(old(State()), choices)
    {
      var i := 0;
      while i < |choices|
        invariant 0 <= i <= |choices|
        invariant Valid()
        invariant Run(old(State()), choices) == Run(State(), choices[i..])
      {
        ghost var before := State();
        match choices[i] {
          case Receive =>
            if |eventChannel| > 0 {
              Receive();
            }
          case Tick(put) =>
            var _ := Tick(put);
        }
        assert choices[i..][1..] == choices[i + 1..];
        assert State() == Step(before, choices[i]);
        i := i + 1;
      }
      assert choices[i..] == [];
    }
  }

  /** A client of the hook: the stream is created, and one event is sent and the
      returned token adopted. */
  method SendAndAdopt() {
    var hook, err := Hook.NewHook("group", "stream", Success([]), None);
    assert hook != null && hook.sequenceToken == None;
    err := hook.Fire(Success("A"), 5_000_000);
    assert err == None && hook.eventChannel == [LogEvent("A", 5)];
    hook.Receive();
    var request := hook.Tick(Success(Some("T1")));
    assert request == Some(PutRequest("group", "stream", [LogEvent("A", 5)], None));
    assert hook.events == [] && hook.sequenceToken == Some("T1");
  }

  /** A client of the hook: a failed send keeps the event pending under the same token
      until the following tick sends it. */
  method FailAndRetry() {
    var hook := new Hook("group", "stream", Some("T1"));
    var err := hook.Fire(Success("E"), 7_999_999);
    hook.Receive();
    var request := hook.Tick(Failure(Error("throttled")));
    assert request.Some? && hook.events == [LogEvent("E", 7)] && hook.sequenceToken == Some("T1");
    request := hook.Tick(Success(Some("T2")));
    assert request == Some(PutRequest("group", "stream", [LogEvent("E", 7)], Some("T1")));
    assert hook.events == [] && hook.sequenceToken == Some("T2");
  }

  /** A client of the hook: while sending is off a tick sends nothing and keeps the
      batch and the token. The event fired at -1 ns is stamped 0 ms, not -1. */
  method PausedTick() {
    var hook := new Hook("group", "stream", Some("T2"));
    hook.StopSendingEvents();
    var err := hook.Fire(Success("F"), -1);
    assert hook.eventChannel == [LogEvent("F", 0)];
    hook.Receive();
    var request := hook.Tick(Success(Some("T3")));
    assert request == None && hook.events == [LogEvent("F", 0)] && hook.sequenceToken == Some("T2");
  }

  /** A client of the hook: events gathered while sending was off are sent by the first
      tick after it is switched back on. */
  method ResumedTick() {
    var hook := new Hook("group", "stream", Some("T2"));
    hook.StopSendingEvents();
    var err := hook.Fire(Success("G"), 9_000_000);
    assert hook.eventChannel == [LogEvent("G", 9)];
    hook.Receive();
    assert hook.events == [LogEvent("G", 9)] && hook.sequenceToken == Some("T2");
    hook.StartSendingEvents();
    var request := hook.Tick(Success(Some("T3")));
    assert request == Some(PutRequest("group", "stream", [LogEvent("G", 9)], Some("T2")));
    assert hook.events == [] && hook.sequenceToken == Some("T3");
  }
}
