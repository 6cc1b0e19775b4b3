/** Concrete runs of a broker with one or two streams. */
module BrokerExamples {
  import opened Basics
  import opened Sequences
  import opened InterviewModel
  import opened BrokerModel
  import opened BrokerRuns
  import opened BrokerTrim
  import opened BrokerAnswers

  // ---------- a broker with at most one stream ----------

  /** An open broker without tombstones whose only stream, if any, is the operation's. */
  ghost predicate Alone(b: Broker, op: Operation) {
    ValidConfig(b.config) && !b.closed && b.tombstones == map[] && b.states.Keys <= {op.id}
  }

  /** The operation's stream, of its target and attempt, with history that has not expired. */
  ghost predicate Live(b: Broker, op: Operation) {
    && Alone(b, op) && op.id in b.states && SameTarget(b.states[op.id], op) && b.states[op.id].attemptCount == op.attemptCount
    && !HasExpired(b, op.id)
  }

  lemma TrimAlone(b: Broker, op: Operation)
    requires Alone(b, op)
    ensures Trim(b) == b
  {
    SubsetCard(Retained(b.states), {op.id});
    NothingTrimmed(b.states, b.config.historyOperationLimit);
  }

  lemma NobodyErased(b: Broker, op: Operation)
    requires b.tombstones == map[]
    ensures !IsErased(b, op) && AfterErasedCheck(b, op) == b
  {
  }

  lemma FoundLive(b: Broker, op: Operation)
    requires Live(b, op)
    ensures FindState(b, op, false) == Found(b, op, false) && Ready(b, op, false) == Found(b, op, false) && Opens(b, op, false)
  {
    NobodyErased(b, op);
  }

  /** Without a stream, or with an expired one that nobody listens to, a new stream begins. */
  lemma FoundNew(b: Broker, op: Operation)
    requires Alone(b, op) && (op.id in b.states ==> HasExpired(b, op.id) && b.states[op.id].listeners == {})
    ensures var c := Born(Drop(b, op.id), op, false);
            FindState(b, op, false) == c && Ready(b, op, false) == c && Opens(b, op, false)
  {
    NobodyErased(b, op);
    assert b.states - {op.id} == map[];
    if op.id !in b.states {
      assert Drop(b, op.id) == b;
    }
    TrimAlone(Born(Drop(b, op.id), op, false), op);
  }

  /** A broker on which the operation's stream is ready for the next event. */
  ghost predicate Takes(r: Broker, op: Operation) {
    Alone(r, op) && op.id in r.states && TerminalOf(r.states[op.id].events).None? && HasNumbers(r, op.id, 1)
  }

  /** The stream with one more event. */
  function Told(r: Broker, op: Operation, e: StreamEvent): Broker
    requires op.id in r.states
  {
    Extended(Put(r, op.id, r.states[op.id].(nextSequence := r.states[op.id].nextSequence + 1)), op.id, e, {})
  }

  lemma EventTold(r: Broker, op: Operation, m: Message)
    requires Takes(r, op) && Maps(r.config, op, m) && !m.SayBoth?
    ensures var e := EventsOf(op, m, r.states[op.id].nextSequence)[0];
            Emit(r, op, m, {}) == (Told(r, op, e), One(e)) && Alone(Told(r, op, e), op)
  {
    var events := EventsOf(op, m, r.states[op.id].nextSequence);
    TrimAlone(Told(r, op, events[0]), op);
    assert events[1..] == [];
    assert PublishAll(TakeNumbers(r, op.id, 1), op.id, r.states[op.id].birth, events, {})
        == Publish(TakeNumbers(r, op.id, 1), op.id, r.states[op.id].birth, events[0], {});
  }

  /** Publishing on a broker whose ready stream is known. */
  lemma Sent1(b: Broker, r: Broker, op: Operation, m: Message)
    requires !b.closed && Opens(b, op, false) && r == Ready(b, op, false) && Takes(r, op)
    requires Maps(r.config, op, m) && !m.SayBoth? && (m.SayEnd? ==> Finished(op))
    ensures var e := EventsOf(op, m, r.states[op.id].nextSequence)[0];
            Next(b, Publishing(op, m, false, {})) == Told(r, op, e) && Alone(Told(r, op, e), op)
  {
    EventTold(r, op, m);
  }

  /** The first subscription, at the beginning, to an operation without a stream. */
  lemma FirstListener(b: Broker, op: Operation)
    requires Alone(b, op) && b.states == map[]
    ensures var c := Born(b, op, false);
            Next(b, Listen(op, 0, false)) == Join(c, op.id) && Alone(Join(c, op.id), op)
  {
    NobodyErased(b, op);
    FoundNew(b, op);
    assert Drop(b, op.id) == b;
  }

  // ---------- one listener, one event ----------

  /** The first stream of an operation with one listener, before any event. */
  ghost predicate Listening(b: Broker, config: Config, now: int, op: Operation) {
    && Live(b, op) && b.config == config && b.now == now && b.nextBirth == 1
    && b.logs == map[0 := Log(op.id, [], [])] && 0 in b.feeds
    && var s := b.states[op.id];
       s.birth == 0 && s.events == [] && s.listeners == {0} && s.nextSequence == 1 && s.historyExpiresAt.None?
  }

  lemma StartListening(config: Config, now: int, op: Operation)
    requires ValidConfig(config)
    ensures Listening(Next(Fresh(config, now), Listen(op, 0, false)), config, now, op)
  {
    FirstListener(Fresh(config, now), op);
  }

  /** The same stream after one event. */
  ghost predicate Told1(b: Broker, config: Config, now: int, op: Operation, e: StreamEvent) {
    && Alone(b, op) && op.id in b.states && SameTarget(b.states[op.id], op) && b.states[op.id].attemptCount == op.attemptCount
    && b.config == config && b.now == now && b.nextBirth == 1 && b.logs == map[0 := Log(op.id, [e], [])]
    && var s := b.states[op.id];
       s.birth == 0 && s.events == [e] && s.listeners == {0} && s.nextSequence == 2 && s.historyExpiresAt == Some(now + config.replayTtlMs)
  }

  /** The message that becomes this event. */
  function Saying(e: StreamEvent): Message {
    if e.TextDelta? then SayText(e.text, e.occurredAt) else SayEnd
  }

  lemma SendFirst(b: Broker, config: Config, now: int, op: Operation, e: StreamEvent)
    requires Listening(b, config, now, op) && e.sequence == 1
    requires e.TextDelta? ==> config.textMaps(op, e.text, e.occurredAt)
    requires e.Terminal? ==> Finished(op) && config.terminalMaps(op) && e.succeeded == (op.status == StatusSucceeded)
    ensures Told1(Next(b, Publishing(op, Saying(e), false, {})), config, now, op, e)
  {
    FoundLive(b, op);
    Sent1(b, Found(b, op, false), op, Saying(e));
    assert b.states[op.id].events + [e] == [e];
  }

  /** A run to a stream with one listener and one event. */
  lemma OneEvent(config: Config, now: int, op: Operation, e: StreamEvent) returns (steps: seq<Step>, b: Broker)
    requires ValidConfig(config) && e.sequence == 1
    requires e.TextDelta? ==> config.textMaps(op, e.text, e.occurredAt)
    requires e.Terminal? ==> Finished(op) && config.terminalMaps(op) && e.succeeded == (op.status == StatusSucceeded)
    ensures Reaches(Fresh(config, now), steps, b) && Told1(b, config, now, op, e)
  {
    var b0 := Fresh(config, now);
    var listen, send := Listen(op, 0, false), Publishing(op, Saying(e), false, {});
    StartListening(config, now, op);
    SendFirst(Next(b0, listen), config, now, op, e);
    assert Reaches(b0, [], b0);
    OneMore(b0, [], b0, listen);
    OneMore(b0, [] + [listen], Next(b0, listen), send);
    steps, b := [] + [listen] + [send], Next(Next(b0, listen), send);
  }

  // ---------- an event lost on resuming ----------

  lemma LeaveAndWait(b: Broker, config: Config, now: int, op: Operation, e: StreamEvent)
    requires Told1(b, config, now, op, e)
    ensures var c := Next(Next(b, Leave(op.id, 0, 0)), Tick(now + config.replayTtlMs));
            && Alone(c, op) && HasExpired(c, op.id) && c.states[op.id].listeners == {}
            && c.config == config && c.now == now + config.replayTtlMs && c.nextBirth == 1 && c.logs == b.logs
  {
    var s := b.states[op.id].(listeners := b.states[op.id].listeners - {0});
    assert Alone(Put(b, op.id, s), op);
    TrimAlone(Put(b, op.id, s), op);
  }

  lemma ToldFirst(b: Broker, op: Operation, y: string, at: int)
    requires ValidConfig(b.config) && op.attemptCount <= 1 && b.nextBirth == 1
    ensures var r, e := Born(b, op, false), TextDelta(1, y, at);
            var c := Told(r, op, e);
            && c.logs == b.logs[1 := Log(op.id, [e], [])] && !HasExpired(c, op.id) && SameTarget(c.states[op.id], op)
            && c.states[op.id].birth == 1 && c.states[op.id].events == [e] && c.states[op.id].nextSequence == 2
            && c.states[op.id].attemptCount == op.attemptCount && !c.states[op.id].continuityUnknown
  {
    var r := Born(b, op, false);
    assert r.states[op.id].events + [TextDelta(1, y, at)] == [TextDelta(1, y, at)];
  }

  lemma SendAfresh(b: Broker, op: Operation, y: string, at: int)
    requires Alone(b, op) && HasExpired(b, op.id) && b.states[op.id].listeners == {} && b.nextBirth == 1
    requires op.attemptCount <= 1 && b.config.textMaps(op, y, at)
    ensures var c, e := Next(b, Publishing(op, SayText(y, at), false, {})), TextDelta(1, y, at);
            && Live(c, op) && c.logs == b.logs[1 := Log(op.id, [e], [])]
            && c.states[op.id].birth == 1 && c.states[op.id].events == [e] && c.states[op.id].nextSequence == 2
            && !c.states[op.id].continuityUnknown
  {
    FoundNew(b, op);
    ToldFirst(Drop(b, op.id), op, y, at);
    Sent1(b, Born(Drop(b, op.id), op, false), op, SayText(y, at));
  }

  lemma ResumeOnLive(b: Broker, op: Operation, last: int)
    requires Live(b, op) && MayStart(b.states[op.id], last, false)
    ensures Subscribe(b, op, last, false).1.Some?
    ensures Subscribe(b, op, last, false).1.value.replay == Filter(After(last), b.states[op.id].events)
    ensures Subscribe(b, op, last, false).1.value.birth == b.states[op.id].birth
  {
    NobodyErased(b, op);
  }

  /** A client joins, is sent event 1, leaves, and its stream expires; the next event is numbered 1 on a new
      stream; resuming after 1 is accepted, replays nothing, and the client never sees that event. */
  lemma EventLostOnResume(config: Config, now: int, op: Operation, x: string, y: string, at: int) returns (steps: seq<Step>)
    requires ValidConfig(config) && op.attemptCount <= 1 && config.textMaps(op, x, at) && config.textMaps(op, y, at)
    ensures Possible(Fresh(config, now), steps)
    ensures var b := Run(Fresh(config, now), steps);
            && b.logs == map[0 := Log(op.id, [TextDelta(1, x, at)], []), 1 := Log(op.id, [TextDelta(1, y, at)], [])]
            && Subscribe(b, op, 1, false).1.Some?
            && Subscribe(b, op, 1, false).1.value.replay == [] && Subscribe(b, op, 1, false).1.value.birth == 1
  {
    var b: Broker;
    var b0, e := Fresh(config, now), TextDelta(1, x, at);
    steps, b := OneEvent(config, now, op, e);
    LeaveAndWait(b, config, now, op, e);
    var leave, wait, again := Leave(op.id, 0, 0), Tick(now + config.replayTtlMs), Publishing(op, SayText(y, at), false, {});
    assert Next(b, leave).now == now;
    var left, waited := Next(b, leave), Next(Next(b, leave), wait);
    SendAfresh(waited, op, y, at);
    ResumeOnLive(Next(waited, again), op, 1);
    OneMore(b0, steps, b, leave);
    OneMore(b0, steps + [leave], left, wait);
    OneMore(b0, steps + [leave] + [wait], waited, again);
    steps := steps + [leave] + [wait] + [again];
  }

  // ---------- events after a terminal event ----------

  /** The stream once its history has expired and it is found again: cleared, with its listener. */
  lemma FoundCleared(b: Broker, op: Operation)
    requires Alone(b, op) && HasExpired(b, op.id) && b.states[op.id].listeners != {}
    requires SameTarget(b.states[op.id], op) && b.states[op.id].attemptCount == op.attemptCount
    ensures var c := Found(ExpireHistory(b, op.id), op, false);
            FindState(b, op, false) == c && Ready(b, op, false) == c && Opens(b, op, false)
  {
    NobodyErased(b, op);
  }

  /** The next event on a stream with one event, whose history has expired and whose listener stayed. */
  lemma SendAfterExpiry(b: Broker, config: Config, now: int, op: Operation, first: StreamEvent, e: StreamEvent)
    requires Told1(b, config, now, op, first) && ValidConfig(config) && e.sequence == 2 && Maps(config, op, Saying(e))
    requires e.Terminal? ==> Finished(op) && e.succeeded == (op.status == StatusSucceeded)
    ensures var c := Next(Next(b, Tick(now + config.replayTtlMs)), Publishing(op, Saying(e), false, {}));
            op.id in c.states && c.states[op.id].birth == 0 && 0 in c.logs && c.logs[0].events == [first, e]
  {
    var waited := Next(b, Tick(now + config.replayTtlMs));
    FoundCleared(waited, op);
    var r := Found(ExpireHistory(waited, op.id), op, false);
    Sent1(waited, r, op, Saying(e));
    assert r.logs[0].events + [e] == [first, e];
  }

  /** A listener stays, the terminal event expires, and another text or terminal event follows it with the
      next number on the same stream. */
  lemma EventsAfterTerminal(config: Config, now: int, op: Operation, e: StreamEvent) returns (steps: seq<Step>)
    requires ValidConfig(config) && Finished(op) && config.terminalMaps(op) && e.sequence == 2
    requires e.TextDelta? ==> config.textMaps(op, e.text, e.occurredAt)
    requires e.Terminal? ==> e.succeeded == (op.status == StatusSucceeded)
    ensures Possible(Fresh(config, now), steps)
    ensures var b := Run(Fresh(config, now), steps);
            && op.id in b.states && b.states[op.id].birth == 0 && 0 in b.logs
            && b.logs[0].events == [Terminal(1, op.status == StatusSucceeded), e]
  {
    var b: Broker;
    var b0, first := Fresh(config, now), Terminal(1, op.status == StatusSucceeded);
    steps, b := OneEvent(config, now, op, first);
    var wait, again := Tick(now + config.replayTtlMs), Publishing(op, Saying(e), false, {});
    var waited := Next(b, wait);
    SendAfterExpiry(b, config, now, op, first, e);
    OneMore(b0, steps, b, wait);
    OneMore(b0, steps + [wait], waited, again);
    steps := steps + [wait] + [again];
  }

  // ---------- an answered event that is not published ----------

  /** Another operation's new stream, without listeners, next to the one that was told an event. */
  lemma NewNextTo(b: Broker, config: Config, now: int, op: Operation, e: StreamEvent, other: Operation)
    requires Told1(b, config, now, op, e) && config.historyOperationLimit == 1 && other.id != op.id
    ensures var c := Born(b, other, false);
            Ready(b, other, false) == c && Opens(b, other, false) && !b.closed
  {
    NobodyErased(b, other);
    assert b.states - {other.id} == b.states;
    var c := Born(b, other, false);
    assert Retained(c.states) == {op.id};
    NothingTrimmed(c.states, 1);
  }

  /** The new stream is idle, and one of too many, as soon as it has an event. */
  lemma TrimmedAtOnce(states: map<Id, Stream>, id: Id, kept: Id)
    requires id != kept && states.Keys == {id, kept} && states[id].events != [] && states[id].listeners == {}
    requires states[kept].events != [] && states[kept].listeners != {}
    ensures Trimmed(states, 1) == {id}
  {
    assert Retained(states) == {id, kept} && Idle(states) == {id};
    assert Rank(states, id) == |set x | x in states && x in Idle(states) && Older(states[x], states[id])|;
    assert (set x | x in states && x in Idle(states) && Older(states[x], states[id])) == {};
  }

  /** A new stream that nobody listens to, next to one with history and a listener; one may retain history. */
  ghost predicate Unheard(r: Broker, id: Id, kept: Id) {
    && r.config.historyOperationLimit == 1 && r.config.historyLimit >= 2 && id != kept && r.states.Keys == {id, kept}
    && r.states[kept].events != [] && r.states[kept].listeners != {}
    && r.states[id].birth == 1 && r.states[id].events == [] && r.states[id].listeners == {}
    && 1 in r.logs && r.logs[1] == Log(id, [], [])
  }

  /** The first event takes the stream away, and the second is not published. */
  lemma PublishedToNobody(r: Broker, id: Id, kept: Id, t: StreamEvent, u: StreamEvent)
    requires Unheard(r, id, kept)
    ensures var c := PublishAll(r, id, 1, [t, u], {});
            id !in c.states && 1 in c.logs && c.logs[1] == Log(id, [t], [])
  {
    var d, first := Extended(r, id, t, {}), Publish(r, id, 1, t, {});
    PublishedThere(r, id, 1, t, {});
    TrimmedAtOnce(d.states, id, kept);
    assert r.logs[1].events + [t] == [t];
    assert Retained(first.states) == {kept};
    NothingTrimmed(first.states, 1);
    PublishTwo(r, id, 1, t, u, {});
  }

  lemma EmittedToNobody(r: Broker, other: Operation, kept: Id, text: string, at: int)
    requires Unheard(r, other.id, kept) && r.states[other.id].nextSequence == 1 && Maps(r.config, other, SayBoth(text, at))
    ensures var (c, answer) := Emit(r, other, SayBoth(text, at), {});
            && answer == Two(TextDelta(1, text, at), Terminal(2, other.status == StatusSucceeded))
            && 1 in c.logs && c.logs[1] == Log(other.id, [TextDelta(1, text, at)], []) && other.id !in c.states
  {
    PublishedToNobody(TakeNumbers(r, other.id, 2), other.id, kept, TextDelta(1, text, at), Terminal(2, other.status == StatusSucceeded));
  }

  lemma SentToNobody(b: Broker, config: Config, now: int, op: Operation, e: StreamEvent, other: Operation, text: string, at: int)
    requires Told1(b, config, now, op, e) && config.historyOperationLimit == 1 && other.id != op.id && config.historyLimit >= 2
    requires Finished(other) && config.textMaps(other, text, at) && config.terminalMaps(other)
    ensures var (c, answer) := Send(b, other, SayBoth(text, at), false, {});
            && answer == Two(TextDelta(1, text, at), Terminal(2, other.status == StatusSucceeded))
            && 1 in c.logs && c.logs[1] == Log(other.id, [TextDelta(1, text, at)], []) && other.id !in c.states
  {
    NewNextTo(b, config, now, op, e, other);
    EmittedToNobody(Born(b, other, false), other, op.id, text, at);
  }

  /** One operation may retain history, and one with a listener does. A text and a terminal event are published
      for another operation that nobody listens to: both are answered, and only the text was published. */
  lemma AnsweredButNotPublished(config: Config, now: int, op: Operation, x: string, other: Operation, text: string, at: int) returns (steps: seq<Step>)
    requires ValidConfig(config) && config.historyOperationLimit == 1 && other.id != op.id && Finished(other)
    requires config.textMaps(op, x, at) && config.textMaps(other, text, at) && config.terminalMaps(other)
    ensures Possible(Fresh(config, now), steps)
    ensures var (c, answer) := Send(Run(Fresh(config, now), steps), other, SayBoth(text, at), false, {});
            && answer == Two(TextDelta(1, text, at), Terminal(2, other.status == StatusSucceeded))
            && 1 in c.logs && c.logs[1] == Log(other.id, [TextDelta(1, text, at)], [])
  {
    var b: Broker;
    steps, b := OneEvent(config, now, op, TextDelta(1, x, at));
    SentToNobody(b, config, now, op, TextDelta(1, x, at), other, text, at);
  }
}
