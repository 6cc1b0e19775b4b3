/** The operation event broker as a value, and each of its operations as a function
    (apps/server/src/operation-events.ts, `OperationEventBroker`). */
module BrokerModel {
  import opened Basics
  import opened Sequences
  import opened InterviewModel

  datatype OperationStatus = StatusPending | StatusProcessing | StatusSucceeded | StatusFailed

  datatype Operation = Operation(id: Id, accountId: Id, interviewId: Id, status: OperationStatus, attemptCount: int)

  datatype StreamEvent =
    | TextDelta(sequence: int, text: string, occurredAt: int)
    | Terminal(sequence: int, succeeded: bool)

  /** The state of one operation's stream. `birth` is the identity of the state object: it is used once.
      `historyTimer` is the time at which the pending timer is due. */
  datatype Stream = Stream(
    birth: nat,
    accountId: Id,
    interviewId: Id,
    events: seq<StreamEvent>,
    listeners: set<nat>,
    attemptCount: int,
    continuityUnknown: bool,
    nextSequence: int,
    touchedAt: int,
    historyExpiresAt: Option<int>,
    historyTimer: Option<int>)

  /** What a tombstone covers. */
  datatype Grave = OperationGrave(operationId: Id) | InterviewGrave(account: Id, interviewId: Id) | AccountGrave(accountId: Id)

  datatype TombstoneTimer = TombstoneTimer(grave: Grave, expiresAt: int, due: int)

  /** The options; the two mappings stand for the event mappers, which can fail. */
  datatype Config = Config(
    historyLimit: nat,
    historyOperationLimit: nat,
    replayTtlMs: int,
    erasureTtlMs: int,
    textMaps: (Operation, string, int) -> bool,
    terminalMaps: Operation -> bool)

  ghost predicate ValidConfig(c: Config) {
    c.historyLimit >= 2 && c.historyOperationLimit >= 1 && c.replayTtlMs >= 1 && c.erasureTtlMs >= 1
  }

  /** History: why retained events were cleared, and how many events the stream had had by then. */
  datatype Clearing = Expiry(at: nat, expiresAt: int, now: int) | LaterAttempt(at: nat, from: int, to: int)

  /** History: everything ever published on a stream, the operation it belongs to, and its clearings. */
  datatype Log = Log(owner: Id, events: seq<StreamEvent>, clearings: seq<Clearing>)

  /** History: what a listener was sent, from the position in the log and the number at which it joined. */
  datatype Feed = Feed(birth: nat, start: nat, floor: int, received: seq<StreamEvent>)

  /** The broker. The last three fields are history: no operation reads them. `doubted` holds the births of the streams
      that were created at a later attempt than the first, or published on with unknown continuity. */
  datatype Broker = Broker(
    config: Config,
    now: int,
    closed: bool,
    states: map<Id, Stream>,
    tombstones: map<Grave, int>,
    timers: multiset<TombstoneTimer>,
    nextBirth: nat,
    nextListener: nat,
    logs: map<nat, Log>,
    feeds: map<nat, Feed>,
    doubted: set<nat>)

  const MAX_TIMER_DELAY: int := 2147483647

  function Fresh(config: Config, now: int): Broker {
    Broker(config, now, false, map[], map[], multiset{}, 0, 0, map[], map[], {})
  }

  /** The delay a timer really gets: the runtime turns a delay out of range into one millisecond. */
  function TimerDelay(delay: int): int {
    if delay < 1 || delay > MAX_TIMER_DELAY then 1 else delay
  }

  function Least(a: int, b: int): int {
    if a <= b then a else b
  }

  function Greatest(a: int, b: int): int {
    if a >= b then a else b
  }

  predicate SameTarget(s: Stream, op: Operation) {
    s.accountId == op.accountId && s.interviewId == op.interviewId
  }

  function TerminalOf(events: seq<StreamEvent>): Option<StreamEvent> {
    if events == [] then None
    else if events[|events| - 1].Terminal? then Some(events[|events| - 1])
    else TerminalOf(events[..|events| - 1])
  }

  predicate Finished(op: Operation) {
    op.status == StatusSucceeded || op.status == StatusFailed
  }

  // ---------- deleting, clearing, trimming ----------

  function Drop(b: Broker, id: Id): Broker {
    b.(states := b.states - {id})
  }

  function Put(b: Broker, id: Id, s: Stream): Broker {
    b.(states := b.states[id := s])
  }

  function Cleared(s: Stream): Stream {
    s.(events := [], historyExpiresAt := None, historyTimer := None)
  }

  function Noted(logs: map<nat, Log>, birth: nat, why: Clearing): map<nat, Log> {
    if birth in logs then logs[birth := logs[birth].(clearings := logs[birth].clearings + [why])] else logs
  }

  function LogSize(b: Broker, birth: nat): nat {
    if birth in b.logs then |b.logs[birth].events| else 0
  }

  /** `clearHistory`, and why; a closed broker keeps no stream without listeners. */
  function ClearHistory(b: Broker, id: Id, why: Clearing): Broker {
    var gone := id in b.states && b.states[id].listeners == {} && b.closed;
    b.(states := if gone then b.states - {id} else if id in b.states then b.states[id := Cleared(b.states[id])] else b.states,
       logs := if id in b.states && !gone then Noted(b.logs, b.states[id].birth, why) else b.logs)
  }

  predicate HasExpired(b: Broker, id: Id) {
    id in b.states && b.states[id].historyExpiresAt.Some? && b.states[id].historyExpiresAt.value <= b.now
  }

  function ExpiryNow(b: Broker, id: Id): Clearing
    requires HasExpired(b, id)
  {
    Expiry(LogSize(b, b.states[id].birth), b.states[id].historyExpiresAt.value, b.now)
  }

  /** `expireHistory`: an expired stream goes, or is cleared when it has a listener. */
  function ExpireHistory(b: Broker, id: Id): Broker {
    if HasExpired(b, id) && b.states[id].listeners != {} then ClearHistory(b, id, ExpiryNow(b, id))
    else b.(states := if HasExpired(b, id) then b.states - {id} else b.states)
  }

  function Retained(states: map<Id, Stream>): set<Id> {
    set id | id in states && states[id].events != []
  }

  /** Streams with history that nobody listens to. */
  function Idle(states: map<Id, Stream>): set<Id> {
    set id | id in states && states[id].events != [] && states[id].listeners == {}
  }

  predicate Older(s: Stream, t: Stream) {
    s.touchedAt < t.touchedAt || (s.touchedAt == t.touchedAt && s.birth < t.birth)
  }

  /** How many idle streams come before this one: those touched less recently; equal times go by age, as the
      stable sort over the map does. */
  function Rank(states: map<Id, Stream>, id: Id): nat
    requires id in states
  {
    |set other | other in states && other in Idle(states) && Older(states[other], states[id])|
  }

  function Excess(states: map<Id, Stream>, limit: nat): nat {
    if |Retained(states)| <= limit then 0 else |Retained(states)| - limit
  }

  /** The idle streams that go when too many operations retain history: the first ones, as many as are too many. */
  function Trimmed(states: map<Id, Stream>, limit: nat): set<Id> {
    set id | id in Idle(states) && Rank(states, id) < Excess(states, limit)
  }

  function TrimStates(states: map<Id, Stream>, limit: nat): map<Id, Stream> {
    states - Trimmed(states, limit)
  }

  function Trim(b: Broker): Broker {
    b.(states := TrimStates(b.states, b.config.historyOperationLimit))
  }

  // ---------- tombstones ----------

  predicate Buried(b: Broker, grave: Grave) {
    grave in b.tombstones && b.tombstones[grave] > b.now
  }

  /** Looking at a tombstone removes it when it has expired. */
  function LookedAt(tombstones: map<Grave, int>, now: int, grave: Grave): map<Grave, int> {
    if grave in tombstones && tombstones[grave] <= now then tombstones - {grave} else tombstones
  }

  function LookAt(b: Broker, grave: Grave): Broker {
    b.(tombstones := LookedAt(b.tombstones, b.now, grave))
  }

  /** Is the operation erased, by itself, by its account or by its interview? */
  predicate IsErased(b: Broker, op: Operation) {
    Buried(b, OperationGrave(op.id)) || Buried(b, AccountGrave(op.accountId)) || Buried(b, InterviewGrave(op.accountId, op.interviewId))
  }

  /** The broker after that question: the tombstones looked at before the answer was known. */
  function AfterErasedCheck(b: Broker, op: Operation): Broker {
    var first := LookedAt(b.tombstones, b.now, OperationGrave(op.id));
    var second := LookedAt(first, b.now, AccountGrave(op.accountId));
    b.(tombstones := if Buried(b, OperationGrave(op.id)) then first
                     else if Buried(b, AccountGrave(op.accountId)) then second
                     else LookedAt(second, b.now, InterviewGrave(op.accountId, op.interviewId)))
  }

  function MarkErased(b: Broker, grave: Grave): Broker {
    var expiresAt := b.now + b.config.erasureTtlMs;
    b.(tombstones := b.tombstones[grave := expiresAt],
       timers := b.timers + multiset{TombstoneTimer(grave, expiresAt, b.now + TimerDelay(b.config.erasureTtlMs))})
  }

  /** Does the tombstone cover this stream? */
  predicate Covers(grave: Grave, id: Id, s: Stream) {
    match grave
    case OperationGrave(operation) => operation == id
    case InterviewGrave(account, interview) => account == s.accountId && interview == s.interviewId
    case AccountGrave(account) => account == s.accountId
  }

  function Outside(states: map<Id, Stream>, grave: Grave): map<Id, Stream> {
    map id | id in states && !Covers(grave, id, states[id]) :: states[id]
  }

  /** Mark, and delete every stream that is covered. */
  function Erase(b: Broker, grave: Grave): Broker {
    MarkErased(b, grave).(states := Outside(b.states, grave))
  }

  function TombstoneTimerFires(b: Broker, t: TombstoneTimer): Broker {
    var fired := b.(timers := b.timers - multiset{t});
    if t.grave in b.tombstones && b.tombstones[t.grave] == t.expiresAt then fired.(tombstones := b.tombstones - {t.grave}) else fired
  }

  // ---------- streams ----------

  function NewStream(b: Broker, op: Operation, continuityUnknown: bool): Stream {
    Stream(b.nextBirth, op.accountId, op.interviewId, [], {}, op.attemptCount, continuityUnknown || op.attemptCount > 1, 1, b.now, None, None)
  }

  function Born(b: Broker, op: Operation, continuityUnknown: bool): Broker {
    Put(b, op.id, NewStream(b, op, continuityUnknown))
      .(nextBirth := b.nextBirth + 1, logs := b.logs[b.nextBirth := Log(op.id, [], [])],
        doubted := if op.attemptCount >= 2 || continuityUnknown then b.doubted + {b.nextBirth} else b.doubted)
  }

  ghost function CreateState(b: Broker, op: Operation, continuityUnknown: bool): Broker {
    if b.closed then b
    else Trim(Born(b, op, continuityUnknown))
  }

  /** A stream that is found again. */
  function Found(b: Broker, op: Operation, continuityUnknown: bool): Broker
    requires op.id in b.states
  {
    var s := b.states[op.id];
    Put(b, op.id, s.(continuityUnknown := s.continuityUnknown || continuityUnknown, touchedAt := b.now))
      .(doubted := if continuityUnknown then b.doubted + {s.birth} else b.doubted)
  }

  /** The stream of an operation that is not erased: found, or created when there is none or one of another target. */
  ghost function OpenState(b: Broker, op: Operation, continuityUnknown: bool): Broker {
    var e := ExpireHistory(b, op.id);
    if op.id in e.states && SameTarget(e.states[op.id], op) then Found(e, op, continuityUnknown)
    else CreateState(Drop(e, op.id), op, continuityUnknown)
  }

  /** `state`: afterwards the operation has a stream exactly when it is not erased and the broker is open. */
  ghost function FindState(b: Broker, op: Operation, continuityUnknown: bool): Broker {
    var looked := AfterErasedCheck(b, op);
    if IsErased(b, op) then Drop(looked, op.id) else OpenState(looked, op, continuityUnknown)
  }

  predicate Current(b: Broker, op: Operation) {
    op.id in b.states && op.attemptCount >= b.states[op.id].attemptCount
  }

  /** `syncAttempt`: a later attempt starts over; an earlier one is refused (see `Current`). */
  function SyncAttempt(b: Broker, op: Operation): Broker {
    if op.id in b.states && op.attemptCount > b.states[op.id].attemptCount
    then ClearHistory(Put(b, op.id, b.states[op.id].(attemptCount := op.attemptCount)), op.id,
                      LaterAttempt(LogSize(b, b.states[op.id].birth), b.states[op.id].attemptCount, op.attemptCount))
    else b
  }

  ghost function BeginAttempt(b: Broker, op: Operation): Broker {
    if b.closed then b
    else
      var e := ExpireHistory(b, op.id);
      if op.id !in e.states then e
      else if !SameTarget(e.states[op.id], op) then Drop(e, op.id)
      else SyncAttempt(e, op)
  }

  // ---------- publishing ----------

  /** Are there `n` more numbers? */
  predicate HasNumbers(b: Broker, id: Id, n: nat) {
    id in b.states && 1 <= b.states[id].nextSequence && b.states[id].nextSequence + n - 1 <= MAX_SAFE_INTEGER
  }

  /** `takeSequence`, `n` times: the numbers from the old `nextSequence` on; without them the stream is deleted. */
  function TakeNumbers(b: Broker, id: Id, n: nat): Broker {
    b.(states := if HasNumbers(b, id, n) then b.states[id := b.states[id].(nextSequence := b.states[id].nextSequence + n)]
                 else b.states - {id})
  }

  function LastOf<T>(s: seq<T>, n: nat): seq<T> {
    if |s| <= n then s else s[|s| - n..]
  }

  /** The stream with the event pushed, cut to the limit, touched, and its expiry scheduled. */
  function Pushed(b: Broker, s: Stream, e: StreamEvent, failing: set<nat>): Stream {
    var expiresAt := b.now + b.config.replayTtlMs;
    s.(events := LastOf(s.events + [e], b.config.historyLimit), touchedAt := b.now, historyExpiresAt := Some(expiresAt),
       historyTimer := Some(b.now + Least(Greatest(1, expiresAt - b.now), MAX_TIMER_DELAY)), listeners := s.listeners - failing)
  }

  /** Every listener of the stream is sent the event. */
  function Sent(feeds: map<nat, Feed>, listeners: set<nat>, e: StreamEvent): map<nat, Feed> {
    map l | l in feeds :: if l in listeners then feeds[l].(received := feeds[l].received + [e]) else feeds[l]
  }

  function Logged(logs: map<nat, Log>, birth: nat, e: StreamEvent): map<nat, Log> {
    if birth in logs then logs[birth := logs[birth].(events := logs[birth].events + [e])] else logs
  }

  /** The event on the stream, in its log and at its listeners. */
  function Extended(b: Broker, id: Id, e: StreamEvent, failing: set<nat>): Broker
    requires id in b.states
  {
    var s := b.states[id];
    Put(b, id, Pushed(b, s, e, failing)).(logs := Logged(b.logs, s.birth, e), feeds := Sent(b.feeds, s.listeners, e))
  }

  /** `publish` to the stream of that birth, if it is still there; listeners in `failing` throw and are dropped. */
  ghost function Publish(b: Broker, id: Id, birth: nat, e: StreamEvent, failing: set<nat>): Broker {
    var there := id in b.states && b.states[id].birth == birth;
    b.(states := TrimStates(if there then Extended(b, id, e, failing).states else b.states, b.config.historyOperationLimit),
       logs := if there then Logged(b.logs, birth, e) else b.logs,
       feeds := if there then Sent(b.feeds, b.states[id].listeners, e) else b.feeds)
  }

  /** Several events, one after the other. */
  ghost function PublishAll(b: Broker, id: Id, birth: nat, events: seq<StreamEvent>, failing: set<nat>): Broker
    decreases |events|
  {
    if events == [] then b else PublishAll(Publish(b, id, birth, events[0], failing), id, birth, events[1..], failing)
  }

  /** What is to be published: a text, the end of the operation, or both. */
  datatype Message = SayText(text: string, at: int) | SayEnd | SayBoth(text: string, at: int)

  function Numbers(m: Message): nat {
    if m.SayBoth? then 2 else 1
  }

  predicate Maps(c: Config, op: Operation, m: Message) {
    && (m.SayEnd? || c.textMaps(op, m.text, m.at))
    && (m.SayText? || c.terminalMaps(op))
  }

  /** The events, numbered from `n` on. */
  function EventsOf(op: Operation, m: Message, n: int): seq<StreamEvent> {
    var end := op.status == StatusSucceeded;
    match m
    case SayText(text, at) => [TextDelta(n, text, at)]
    case SayEnd => [Terminal(n, end)]
    case SayBoth(text, at) => [TextDelta(n, text, at), Terminal(n + 1, end)]
  }

  /** What a publishing call returns. */
  datatype Published = Refused | MappingFailed | One(event: StreamEvent) | Two(text: StreamEvent, terminal: StreamEvent)

  function Answer(events: seq<StreamEvent>): Published
    requires events != []
  {
    if |events| == 1 then One(events[0]) else Two(events[0], events[1])
  }

  ghost function Ready(b: Broker, op: Operation, continuityUnknown: bool): Broker {
    SyncAttempt(FindState(b, op, continuityUnknown), op)
  }

  /** Is there a stream that takes events of this attempt? */
  ghost predicate Opens(b: Broker, op: Operation, continuityUnknown: bool) {
    Current(FindState(b, op, continuityUnknown), op)
  }

  /** What is answered without publishing: a stream that has a terminal event answers the end with it. */
  function Existing(events: seq<StreamEvent>, m: Message): Published {
    match TerminalOf(events)
    case Some(e) => if m.SayEnd? then One(e) else Refused
    case None => Refused
  }

  /** Mapping and publishing events whose numbers were taken. */
  ghost function Deliver(taken: Broker, op: Operation, m: Message, birth: nat, n: int, failing: set<nat>): (Broker, Published) {
    if !Maps(taken.config, op, m) then (taken, MappingFailed)
    else (PublishAll(taken, op.id, birth, EventsOf(op, m, n), failing), Answer(EventsOf(op, m, n)))
  }

  /** Publishing on a ready stream; all numbers are taken before any event is mapped. */
  ghost function Emit(r: Broker, op: Operation, m: Message, failing: set<nat>): (Broker, Published) {
    if op.id !in r.states then (r, Refused)
    else
      var s, taken := r.states[op.id], TakeNumbers(r, op.id, Numbers(m));
      if TerminalOf(s.events).Some? then (r, Existing(s.events, m))
      else if !HasNumbers(r, op.id, Numbers(m)) then (taken, Refused)
      else Deliver(taken, op, m, s.birth, s.nextSequence, failing)
  }

  /** `publishTextDelta`, `publishTerminal` and `publishTextAndTerminal`; the last two refuse an operation that has
      not finished. */
  ghost function Send(b: Broker, op: Operation, m: Message, continuityUnknown: bool, failing: set<nat>): (Broker, Published) {
    if b.closed || (!m.SayText? && !Finished(op)) then (b, Refused)
    else if !Opens(b, op, continuityUnknown) then (FindState(b, op, continuityUnknown), Refused)
    else Emit(Ready(b, op, continuityUnknown), op, m, failing)
  }

  // ---------- subscribing ----------

  datatype Subscription = Subscription(replay: seq<StreamEvent>, terminalSequence: Option<int>, listener: nat, birth: nat)

  function After(lastSequence: int): StreamEvent -> bool {
    (e: StreamEvent) => e.sequence > lastSequence
  }

  /** May a subscription start after `lastSequence` on this stream? */
  predicate MayStart(s: Stream, lastSequence: int, allowTruncatedStart: bool) {
    && !(s.continuityUnknown && lastSequence > 0)
    && (allowTruncatedStart || (if s.events != [] then lastSequence >= s.events[0].sequence - 1 else lastSequence >= s.nextSequence - 1))
    && lastSequence <= s.nextSequence - 1
  }

  function Join(b: Broker, id: Id): Broker
    requires id in b.states
  {
    var s := b.states[id];
    Put(b, id, s.(listeners := s.listeners + {b.nextListener}, touchedAt := b.now))
      .(nextListener := b.nextListener + 1,
        feeds := b.feeds[b.nextListener := Feed(s.birth, LogSize(b, s.birth), s.nextSequence, [])])
  }

  /** The last steps of `subscribe`, on a broker that has or has not the stream. */
  function Attach(f: Broker, op: Operation, lastSequence: int, allowTruncatedStart: bool): (Broker, Option<Subscription>) {
    if !Current(f, op) then (f, None)
    else
      var r := SyncAttempt(f, op);
      if op.id !in r.states || !MayStart(r.states[op.id], lastSequence, allowTruncatedStart) then (r, None)
      else
        var s := r.states[op.id];
        (Join(r, op.id), Some(Subscription(Filter(After(lastSequence), s.events),
                                           match TerminalOf(s.events) case None => None case Some(e) => Some(e.sequence),
                                           r.nextListener, s.birth)))
  }

  /** The broker once outdated history and a stream of another target are out of the way. */
  ghost function SubscribeTarget(b: Broker, op: Operation): Broker {
    var e := ExpireHistory(b, op.id);
    if op.id in e.states && !SameTarget(e.states[op.id], op) then Erase(e, OperationGrave(op.id)) else e
  }

  ghost function SubscribeOn(target: Broker, op: Operation, lastSequence: int, allowTruncatedStart: bool): (Broker, Option<Subscription>) {
    if op.id in target.states then Attach(target, op, lastSequence, allowTruncatedStart)
    else if lastSequence > 0 || target.closed then (target, None)
    else Attach(FindState(target, op, false), op, lastSequence, allowTruncatedStart)
  }

  /** `subscribe`; `None` is the replay-unavailable error. */
  ghost function Subscribe(b: Broker, op: Operation, lastSequence: int, allowTruncatedStart: bool): (Broker, Option<Subscription>) {
    var looked := AfterErasedCheck(b, op);
    if IsErased(b, op) then (looked, None) else SubscribeOn(SubscribeTarget(looked, op), op, lastSequence, allowTruncatedStart)
  }

  /** The stream of that birth without the listener; without listeners and history it goes. */
  function Left(b: Broker, id: Id, birth: nat, listener: nat): Broker {
    if id !in b.states || b.states[id].birth != birth then b
    else
      var s := b.states[id].(listeners := b.states[id].listeners - {listener});
      b.(states := if s.listeners == {} && s.events == [] then b.states - {id} else b.states[id := s])
  }

  /** `unsubscribe`, called at most once per subscription. */
  ghost function Unsubscribe(b: Broker, id: Id, birth: nat, listener: nat): Broker {
    Trim(Left(b, id, birth, listener))
  }

  // ---------- timers, clock, closing ----------

  function HistoryTimerFires(b: Broker, id: Id): Broker {
    if id !in b.states || b.states[id].historyTimer.None? then b
    else
      var s := b.states[id].(historyTimer := None);
      if s.historyExpiresAt.None? then Put(b, id, s)
      else if s.historyExpiresAt.value > b.now then
        Put(b, id, s.(historyTimer := Some(b.now + Least(Greatest(1, s.historyExpiresAt.value - b.now), MAX_TIMER_DELAY))))
      else ExpireHistory(Put(b, id, s), id)
  }

  function Close(b: Broker): Broker {
    if b.closed then b else b.(closed := true, states := map[], tombstones := map[], timers := multiset{})
  }
}
