/** The broker as the source runs it: an object updated in place, each method proved against its function
    (apps/server/src/operation-events.ts, `OperationEventBroker`). */
module BrokerClass {
  import opened Basics
  import opened Sequences
  import opened InterviewModel
  import opened BrokerModel
  import opened BrokerInvariant
  import opened BrokerRuns
  import opened BrokerTrim
  import opened BrokerAnswers
  import opened BrokerErasure
  import opened BrokerFacts
  import opened BrokerAcceptance
  import opened BrokerPublishing
  import opened BrokerSubscribing

  /** Of these streams the one touched least recently. */
  method FindOldest(states: map<Id, Stream>, ids: set<Id>) returns (oldest: Id)
    requires Distinct(states) && ids <= states.Keys && ids != {}
    ensures oldest in ids && forall other :: other in ids && other != oldest ==> Older(states[oldest], states[other])
  {
    var waiting := ids;
    oldest :| oldest in waiting;
    waiting := waiting - {oldest};
    while waiting != {}
      invariant oldest in ids && waiting <= ids && oldest !in waiting
      invariant forall other :: other in ids && other !in waiting && other != oldest ==> Older(states[oldest], states[other])
      decreases |waiting|
    {
      var candidate :| candidate in waiting;
      waiting := waiting - {candidate};
      if Older(states[candidate], states[oldest]) {
        oldest := candidate;
      }
    }
  }

  /** The idle streams, least recently touched first. */
  method SortIdle(states: map<Id, Stream>) returns (order: seq<Id>)
    requires Distinct(states)
    ensures IdleInOrder(states, order)
  {
    var waiting := Idle(states);
    order := [];
    while waiting != {}
      invariant waiting <= Idle(states) && InOrder(states, order)
      invariant forall id :: id in order <==> id in Idle(states) && id !in waiting
      invariant forall a, b :: a in order && b in waiting ==> Older(states[a], states[b])
      decreases |waiting|
    {
      var oldest := FindOldest(states, waiting);
      waiting := waiting - {oldest};
      order := order + [oldest];
    }
  }

  lemma NoneToDrop(b: Broker, id: Id)
    ensures id !in b.states ==> Drop(b, id) == b
  {
    assert id !in b.states ==> b.states - {id} == b.states;
  }

  class OperationEventBroker {
    const config: Config
    var now: int
    var closed: bool
    var states: map<Id, Stream>
    var tombstones: map<Grave, int>
    var timers: multiset<TombstoneTimer>
    var nextBirth: nat
    var nextListener: nat
    ghost var logs: map<nat, Log>
    ghost var feeds: map<nat, Feed>
    ghost var doubted: set<nat>

    ghost function Model(): Broker
      reads this
    {
      Broker(config, now, closed, states, tombstones, timers, nextBirth, nextListener, logs, feeds, doubted)
    }

    ghost predicate Valid()
      reads this
    {
      Inv(Model())
    }

    constructor (options: Config, start: int)
      requires ValidConfig(options)
      ensures Valid() && Model() == Fresh(options, start)
    {
      config, now, closed := options, start, false;
      states, tombstones, timers := map[], map[], multiset{};
      nextBirth, nextListener, logs, feeds, doubted := 0, 0, map[], map[], {};
    }

    // ---------- deleting, clearing, trimming ----------

    method DeleteState(id: Id)
      modifies this`states
      ensures Model() == Drop(old(Model()), id)
    {
      states := states - {id};
    }

    method ClearHistoryOf(id: Id, ghost why: Clearing)
      modifies this`states, this`logs
      ensures Model() == ClearHistory(old(Model()), id, why)
    {
      if id in states {
        if states[id].listeners == {} && closed {
          DeleteState(id);
        } else {
          logs := Noted(logs, states[id].birth, why);
          states := states[id := Cleared(states[id])];
        }
      }
    }

    method ExpireHistoryOf(id: Id)
      modifies this`states, this`logs
      ensures Model() == ExpireHistory(old(Model()), id)
    {
      if id !in states || states[id].historyExpiresAt.None? || states[id].historyExpiresAt.value > now {
        return;
      }
      var idle := states[id].listeners == {};
      if idle {
        DeleteState(id);
      } else {
        ClearHistoryOf(id, Expiry(LogSize(Model(), states[id].birth), states[id].historyExpiresAt.value, now));
      }
    }

    method DeleteFirst(order: seq<Id>, n: nat)
      requires n <= |order|
      modifies this`states
      ensures states == old(states) - Front(order, n)
    {
      assert Front(order, 0) == {};
      for k := 0 to n
        invariant states == old(states) - Front(order, k)
      {
        FrontSnoc(order, k);
        DeleteState(order[k]);
      }
    }

    /** The idle streams sorted once, and the first of them deleted. */
    method DeleteExcess()
      requires Distinct(states)
      modifies this`states
      ensures states == TrimStates(old(states), config.historyOperationLimit)
    {
      var retained, limit := |Retained(states)|, config.historyOperationLimit;
      if retained <= limit {
        NothingTrimmed(states, limit);
        return;
      }
      var order := SortIdle(states);
      TrimIsSlice(states, limit, order);
      DeleteFirst(order, if retained - limit <= |order| then retained - limit else |order|);
    }

    method TrimHistoryOperations()
      requires Valid()
      modifies this`states
      ensures Model() == Trim(old(Model())) && Valid() && Bounded(Model())
    {
      BirthsDiffer(Model());
      TrimKeeps(Model());
      TrimBounds(Model());
      DeleteExcess();
    }

    // ---------- tombstones ----------

    method ActiveTombstone(grave: Grave) returns (active: bool)
      modifies this`tombstones
      ensures active == Buried(old(Model()), grave) && Model() == LookAt(old(Model()), grave)
    {
      if grave !in tombstones {
        return false;
      }
      if tombstones[grave] <= now {
        tombstones := tombstones - {grave};
        return false;
      }
      return true;
    }

    method CheckErased(op: Operation) returns (erased: bool)
      modifies this`tombstones
      ensures erased == IsErased(old(Model()), op) && Model() == AfterErasedCheck(old(Model()), op)
    {
      erased := ActiveTombstone(OperationGrave(op.id));
      if !erased {
        erased := ActiveTombstone(AccountGrave(op.accountId));
        if !erased {
          erased := ActiveTombstone(InterviewGrave(op.accountId, op.interviewId));
        }
      }
    }

    method Mark(grave: Grave)
      modifies this`tombstones, this`timers
      ensures Model() == MarkErased(old(Model()), grave)
    {
      var expiresAt := now + config.erasureTtlMs;
      tombstones := tombstones[grave := expiresAt];
      timers := timers + multiset{TombstoneTimer(grave, expiresAt, now + TimerDelay(config.erasureTtlMs))};
    }

    /** Every stream that the tombstone covers is deleted. */
    method DeleteCovered(grave: Grave)
      modifies this`states
      ensures states == Outside(old(states), grave)
    {
      var waiting := states.Keys;
      while waiting != {}
        invariant waiting <= states.Keys <= old(states).Keys
        invariant forall id :: id in states ==> states[id] == old(states)[id]
        invariant forall id :: id in old(states) && id !in waiting ==> (id in states <==> !Covers(grave, id, old(states)[id]))
        decreases |waiting|
      {
        var id :| id in waiting;
        waiting := waiting - {id};
        if Covers(grave, id, states[id]) {
          DeleteState(id);
        }
      }
    }

    /** `eraseOperation`, `eraseInterview` and `eraseAccount`: mark, then delete what the tombstone covers. */
    method EraseAll(grave: Grave)
      requires Valid()
      modifies this`tombstones, this`timers, this`states
      ensures Model() == Erase(old(Model()), grave) && Valid() && Silent(Model(), grave)
      ensures forall id :: id in states <==> id in old(states) && !Concerns(grave, id, old(states)[id])
    {
      ErasingLeaves(Model(), grave);
      MarkedCovers(Model(), grave);
      BuriedIsSilent(Erase(Model(), grave), grave);
      Mark(grave);
      DeleteCovered(grave);
    }

    method FireTombstoneTimer(t: TombstoneTimer)
      requires Valid()
      modifies this`tombstones, this`timers
      ensures Model() == TombstoneTimerFires(old(Model()), t) && Valid()
      ensures forall g :: g in old(tombstones) && (g != t.grave || old(tombstones)[g] != t.expiresAt) ==>
                g in tombstones && tombstones[g] == old(tombstones)[g]
    {
      TombstoneTimerKeeps(Model(), t);
      timers := timers - multiset{t};
      if t.grave in tombstones && tombstones[t.grave] == t.expiresAt {
        tombstones := tombstones - {t.grave};
      }
    }

    // ---------- streams ----------

    method AddStream(op: Operation, continuityUnknown: bool)
      requires Valid() && !closed && !IsErased(Model(), op)
      modifies this`states, this`nextBirth, this`logs, this`doubted
      ensures Model() == Born(old(Model()), op, continuityUnknown) && Valid()
    {
      BirthKeeps(Model(), op, continuityUnknown);
      states := states[op.id := Stream(nextBirth, op.accountId, op.interviewId, [], {}, op.attemptCount,
                                       continuityUnknown || op.attemptCount > 1, 1, now, None, None)];
      logs := logs[nextBirth := Log(op.id, [], [])];
      if op.attemptCount >= 2 || continuityUnknown {
        doubted := doubted + {nextBirth};
      }
      nextBirth := nextBirth + 1;
    }

    method CreateStateFor(op: Operation, continuityUnknown: bool)
      requires Valid() && !IsErased(Model(), op)
      modifies this`states, this`nextBirth, this`logs, this`doubted
      ensures Model() == CreateState(old(Model()), op, continuityUnknown) && Valid()
    {
      if closed {
        return;
      }
      AddStream(op, continuityUnknown);
      TrimHistoryOperations();
    }

    method OpenStateFor(op: Operation, continuityUnknown: bool)
      requires Valid() && !IsErased(Model(), op)
      modifies this`states, this`nextBirth, this`logs, this`doubted
      ensures Model() == OpenState(old(Model()), op, continuityUnknown) && Valid()
    {
      OpenKeeps(Model(), op, continuityUnknown);
      ExpireKeeps(Model(), op.id);
      ExpireHistoryOf(op.id);
      if op.id in states && SameTarget(states[op.id], op) {
        Touch(op, continuityUnknown);
        return;
      }
      ReplaceStateFor(op, continuityUnknown);
    }

    method ReplaceStateFor(op: Operation, continuityUnknown: bool)
      requires Valid() && !IsErased(Model(), op)
      modifies this`states, this`nextBirth, this`logs, this`doubted
      ensures Model() == CreateState(Drop(old(Model()), op.id), op, continuityUnknown) && Valid()
    {
      DropKeeps(Model(), op.id);
      NoneToDrop(Model(), op.id);
      if op.id in states {
        DeleteState(op.id);
      }
      CreateStateFor(op, continuityUnknown);
    }

    method Touch(op: Operation, continuityUnknown: bool)
      requires op.id in states
      modifies this`states, this`doubted
      ensures Model() == Found(old(Model()), op, continuityUnknown)
    {
      var s := states[op.id];
      states := states[op.id := s.(continuityUnknown := s.continuityUnknown || continuityUnknown, touchedAt := now)];
      if continuityUnknown {
        doubted := doubted + {s.birth};
      }
    }

    /** `state`; the stream exists afterwards exactly when one is returned in the source. */
    method StateFor(op: Operation, continuityUnknown: bool)
      requires Valid()
      modifies this`states, this`nextBirth, this`logs, this`doubted, this`tombstones
      ensures Model() == FindState(old(Model()), op, continuityUnknown) && Valid()
      ensures op.id in states <==> !closed && !IsErased(old(Model()), op)
    {
      FindKeeps(Model(), op, continuityUnknown);
      CheckKeeps(Model(), op);
      var erased := CheckErased(op);
      if erased {
        DeleteState(op.id);
        return;
      }
      assert !IsErased(Model(), op);
      OpenStateFor(op, continuityUnknown);
    }

    /** `syncAttempt`: false refuses an earlier attempt. */
    method Sync(op: Operation) returns (current: bool)
      requires op.id in states
      modifies this`states, this`logs
      ensures current == Current(old(Model()), op) && Model() == SyncAttempt(old(Model()), op)
    {
      var s := states[op.id];
      if op.attemptCount < s.attemptCount {
        return false;
      }
      if op.attemptCount > s.attemptCount {
        ghost var why := LaterAttempt(LogSize(Model(), s.birth), s.attemptCount, op.attemptCount);
        states := states[op.id := s.(attemptCount := op.attemptCount)];
        ClearHistoryOf(op.id, why);
      }
      return true;
    }

    method BeginAttemptOf(op: Operation)
      requires Valid()
      modifies this`states, this`logs
      ensures Model() == BeginAttempt(old(Model()), op) && Valid()
      ensures op.id in states <==> Owns(old(Model()), op)
      ensures op.id in states ==> SameTarget(states[op.id], op) && states[op.id].attemptCount >= op.attemptCount
      ensures op.id in states && old(states)[op.id].attemptCount < op.attemptCount ==> states[op.id].events == []
    {
      BeginningLeaves(Model(), op);
      BeginKeeps(Model(), op);
      if closed {
        return;
      }
      ExpireHistoryOf(op.id);
      if op.id !in states {
        return;
      }
      if !SameTarget(states[op.id], op) {
        DeleteState(op.id);
        return;
      }
      var current := Sync(op);
    }

    // ---------- publishing ----------

    /** `takeSequence`: the next number, or none and the stream is deleted. */
    method Take(id: Id) returns (sequence: Option<int>)
      modifies this`states
      ensures Model() == TakeNumbers(old(Model()), id, 1)
      ensures sequence == if HasNumbers(old(Model()), id, 1) then Some(old(states)[id].nextSequence) else None
    {
      if id !in states {
        NoneToDrop(Model(), id);
        return None;
      }
      var next := states[id].nextSequence;
      if next > MAX_SAFE_INTEGER || next < 1 {
        DeleteState(id);
        return None;
      }
      states := states[id := states[id].(nextSequence := next + 1)];
      return Some(next);
    }

    /** Push, touch, schedule the expiry, and send the event to every listener; throwing listeners go. */
    method PublishTo(id: Id, birth: nat, e: StreamEvent, failing: set<nat>)
      requires Valid() && (id in states && states[id].birth == birth ==> MayPush(Model(), id, e))
      modifies this`states, this`logs, this`feeds
      ensures Model() == Publish(old(Model()), id, birth, e, failing) && Valid()
    {
      if id in states && states[id].birth == birth {
        PushKeeps(Model(), id, e, failing);
        Push(id, e, failing);
      }
      TrimHistoryOperations();
    }

    method Push(id: Id, e: StreamEvent, failing: set<nat>)
      requires id in states
      modifies this`states, this`logs, this`feeds
      ensures Model() == Extended(old(Model()), id, e, failing)
    {
      var s := states[id];
      var events := s.events + [e];
      if |events| > config.historyLimit {
        events := events[|events| - config.historyLimit..];
      }
      var expiresAt := now + config.replayTtlMs;
      var delay := Least(Greatest(1, expiresAt - now), MAX_TIMER_DELAY);
      states := states[id := s.(events := events, touchedAt := now, historyExpiresAt := Some(expiresAt),
                                historyTimer := Some(now + delay), listeners := s.listeners - failing)];
      logs := Logged(logs, s.birth, e);
      feeds := Sent(feeds, s.listeners, e);
    }

    /** The stream of this attempt, if there is one. */
    method OpenStream(op: Operation, continuityUnknown: bool) returns (opens: bool)
      requires Valid()
      modifies this`states, this`nextBirth, this`logs, this`doubted, this`tombstones
      ensures Valid() && opens == Opens(old(Model()), op, continuityUnknown)
      ensures Model() == if opens then Ready(old(Model()), op, continuityUnknown) else FindState(old(Model()), op, continuityUnknown)
      ensures opens ==> op.id in states
    {
      ReadyKeeps(Model(), op, continuityUnknown);
      StateFor(op, continuityUnknown);
      if op.id !in states {
        return false;
      }
      NoneWhenClosed(Model(), op.id);
      opens := Sync(op);
    }

    method PublishText(op: Operation, text: string, at: int, failing: set<nat>) returns (r: Published)
      requires Valid()
      modifies this
      ensures (Model(), r) == Send(old(Model()), op, SayText(text, at), false, failing) && Valid()
      ensures r == Expected(old(Model()), op, SayText(text, at)) && Fits(r, SayText(text, at))
      ensures exists birth: nat, count: nat :: Names(old(Model()), Model(), r, op, SayText(text, at), birth, count)
    {
      SendKeeps(Model(), op, SayText(text, at), false, failing);
      AnswerFits(Model(), op, SayText(text, at), false, failing);
      SendAnswersAsExpected(Model(), op, SayText(text, at), false, failing);
      ghost var birth, count := AnswerNamesWhatWasPublished(Model(), op, SayText(text, at), false, failing);
      if closed {
        return Refused;
      }
      var opens := OpenStream(op, false);
      if !opens {
        return Refused;
      }
      r := EmitTextOn(op, text, at, failing);
    }

    method EmitTextOn(op: Operation, text: string, at: int, failing: set<nat>) returns (r: Published)
      requires Valid() && op.id in states
      modifies this`states, this`logs, this`feeds
      ensures (Model(), r) == Emit(old(Model()), op, SayText(text, at), failing) && Valid()
    {
      if TerminalOf(states[op.id].events).Some? {
        return Refused;
      }
      ghost var before := Model();
      var birth := states[op.id].birth;
      TakeKeeps(before, op.id, 1);
      var sequence := Take(op.id);
      if sequence.None? {
        return Refused;
      }
      if !config.textMaps(op, text, at) {
        return MappingFailed;
      }
      var e := TextDelta(sequence.value, text, at);
      TakenMayPush(before, op, SayText(text, at));
      PublishOne(Model(), op.id, birth, e, failing);
      PublishTo(op.id, birth, e, failing);
      return One(e);
    }

    method PublishTerminalOf(op: Operation, continuityUnknown: bool, failing: set<nat>) returns (r: Published)
      requires Valid()
      modifies this
      ensures (Model(), r) == Send(old(Model()), op, SayEnd, continuityUnknown, failing) && Valid()
      ensures r == Expected(old(Model()), op, SayEnd) && Fits(r, SayEnd)
      ensures exists birth: nat, count: nat :: Names(old(Model()), Model(), r, op, SayEnd, birth, count)
    {
      SendKeeps(Model(), op, SayEnd, continuityUnknown, failing);
      AnswerFits(Model(), op, SayEnd, continuityUnknown, failing);
      SendAnswersAsExpected(Model(), op, SayEnd, continuityUnknown, failing);
      ghost var birth, count := AnswerNamesWhatWasPublished(Model(), op, SayEnd, continuityUnknown, failing);
      if closed || !Finished(op) {
        return Refused;
      }
      var opens := OpenStream(op, continuityUnknown);
      if !opens {
        return Refused;
      }
      r := EmitTerminalOn(op, failing);
    }

    method EmitTerminalOn(op: Operation, failing: set<nat>) returns (r: Published)
      requires Valid() && op.id in states
      modifies this`states, this`logs, this`feeds
      ensures (Model(), r) == Emit(old(Model()), op, SayEnd, failing) && Valid()
    {
      var existing := TerminalOf(states[op.id].events);
      if existing.Some? {
        return One(existing.value);
      }
      ghost var before := Model();
      var birth := states[op.id].birth;
      TakeKeeps(before, op.id, 1);
      var sequence := Take(op.id);
      if sequence.None? {
        return Refused;
      }
      if !config.terminalMaps(op) {
        return MappingFailed;
      }
      var e := Terminal(sequence.value, op.status == StatusSucceeded);
      TakenMayPush(before, op, SayEnd);
      PublishOne(Model(), op.id, birth, e, failing);
      PublishTo(op.id, birth, e, failing);
      return One(e);
    }

    /** Two numbers; the second is asked for even when there is no first. */
    method TakeBoth(id: Id) returns (first: Option<int>, second: Option<int>)
      requires id in states
      modifies this`states
      ensures Model() == TakeNumbers(old(Model()), id, 2)
      ensures first.Some? && second.Some? <==> HasNumbers(old(Model()), id, 2)
      ensures first.Some? && second.Some? ==> first.value == old(states)[id].nextSequence && second.value == first.value + 1
    {
      first := Take(id);
      second := Take(id);
    }

    method PublishBoth(op: Operation, text: string, at: int, failing: set<nat>) returns (r: Published)
      requires Valid()
      modifies this
      ensures (Model(), r) == Send(old(Model()), op, SayBoth(text, at), false, failing) && Valid()
      ensures r == Expected(old(Model()), op, SayBoth(text, at)) && Fits(r, SayBoth(text, at))
      ensures exists birth: nat, count: nat :: Names(old(Model()), Model(), r, op, SayBoth(text, at), birth, count)
    {
      SendKeeps(Model(), op, SayBoth(text, at), false, failing);
      AnswerFits(Model(), op, SayBoth(text, at), false, failing);
      SendAnswersAsExpected(Model(), op, SayBoth(text, at), false, failing);
      ghost var birth, count := AnswerNamesWhatWasPublished(Model(), op, SayBoth(text, at), false, failing);
      if closed || !Finished(op) {
        return Refused;
      }
      var opens := OpenStream(op, false);
      if !opens {
        return Refused;
      }
      r := EmitBothOn(op, text, at, failing);
    }

    method EmitBothOn(op: Operation, text: string, at: int, failing: set<nat>) returns (r: Published)
      requires Valid() && op.id in states
      modifies this`states, this`logs, this`feeds
      ensures (Model(), r) == Emit(old(Model()), op, SayBoth(text, at), failing) && Valid()
    {
      if TerminalOf(states[op.id].events).Some? {
        return Refused;
      }
      ghost var before := Model();
      var birth := states[op.id].birth;
      TakeKeeps(before, op.id, 2);
      var textSequence, terminalSequence := TakeBoth(op.id);
      if textSequence.None? || terminalSequence.None? {
        return Refused;
      }
      TakenMayPush(before, op, SayBoth(text, at));
      r := DeliverBoth(op, text, at, birth, textSequence.value, terminalSequence.value, failing);
    }

    method DeliverBoth(op: Operation, text: string, at: int, birth: nat, first: int, second: int, failing: set<nat>) returns (r: Published)
      requires Valid() && second == first + 1 && MayPushAll(Model(), op.id, birth, EventsOf(op, SayBoth(text, at), first))
      modifies this`states, this`logs, this`feeds
      ensures (Model(), r) == Deliver(old(Model()), op, SayBoth(text, at), birth, first, failing) && Valid()
    {
      if !config.textMaps(op, text, at) || !config.terminalMaps(op) {
        return MappingFailed;
      }
      var t, e := TextDelta(first, text, at), Terminal(second, op.status == StatusSucceeded);
      PublishPair(op.id, birth, t, e, failing);
      return Two(t, e);
    }

    method PublishPair(id: Id, birth: nat, t: StreamEvent, e: StreamEvent, failing: set<nat>)
      requires Valid() && MayPushAll(Model(), id, birth, [t, e])
      modifies this`states, this`logs, this`feeds
      ensures Model() == PublishAll(old(Model()), id, birth, [t, e], failing) && Valid()
    {
      MayPushRest(Model(), id, birth, [t, e], failing);
      PublishTwo(Model(), id, birth, t, e, failing);
      PublishTo(id, birth, t, failing);
      PublishTo(id, birth, e, failing);
    }

    // ---------- subscribing ----------

    method SubscribeTo(op: Operation, lastSequence: int, allowTruncatedStart: bool) returns (found: Option<Subscription>)
      requires Valid()
      modifies this
      ensures (Model(), found) == Subscribe(old(Model()), op, lastSequence, allowTruncatedStart) && Valid()
      ensures found.Some? ==> Attached(Model(), op.id, found.value, lastSequence, allowTruncatedStart)
      ensures found.Some? ==> Joins(old(Model()), Model(), op, lastSequence, found.value)
      ensures Facts(old(Model())) ==> (found.Some? <==> Accepts(old(Model()), op, lastSequence, allowTruncatedStart))
    {
      ghost var before := Model();
      if Facts(before) {
        SubscribeAcceptsIff(before, op, lastSequence, allowTruncatedStart);
      }
      SubscribeKeeps(Model(), op, lastSequence, allowTruncatedStart);
      if Subscribe(before, op, lastSequence, allowTruncatedStart).1.Some? {
        SubscribeFacts(before, op, lastSequence, allowTruncatedStart);
        SubscriptionJoins(before, op, lastSequence, allowTruncatedStart);
      }
      CheckKeeps(Model(), op);
      var erased := CheckErased(op);
      if erased {
        return None;
      }
      TargetKeeps(Model(), op);
      ClearTheWay(op);
      if op.id !in states {
        if lastSequence > 0 || closed {
          return None;
        }
        StateFor(op, false);
      }
      found := AttachTo(op, lastSequence, allowTruncatedStart);
    }

    method ClearTheWay(op: Operation)
      requires Valid()
      modifies this
      ensures Model() == SubscribeTarget(old(Model()), op) && Valid()
    {
      ExpireKeeps(Model(), op.id);
      ExpireHistoryOf(op.id);
      if op.id in states && !SameTarget(states[op.id], op) {
        EraseAll(OperationGrave(op.id));
      }
    }

    method AttachTo(op: Operation, lastSequence: int, allowTruncatedStart: bool) returns (found: Option<Subscription>)
      requires Valid()
      modifies this`states, this`logs, this`feeds, this`nextListener
      ensures (Model(), found) == Attach(old(Model()), op, lastSequence, allowTruncatedStart) && Valid()
    {
      AttachKeeps(Model(), op, lastSequence, allowTruncatedStart);
      if op.id !in states {
        return None;
      }
      var current := Sync(op);
      if !current || op.id !in states {
        return None;
      }
      var s := states[op.id];
      var may := MayStartOn(s, lastSequence, allowTruncatedStart);
      if !may {
        return None;
      }
      var terminal := TerminalOf(s.events);
      var sub := Subscription(Filter(After(lastSequence), s.events),
                              if terminal.None? then None else Some(terminal.value.sequence), nextListener, s.birth);
      Register(op.id);
      return Some(sub);
    }

    method MayStartOn(s: Stream, lastSequence: int, allowTruncatedStart: bool) returns (may: bool)
      ensures may == MayStart(s, lastSequence, allowTruncatedStart)
    {
      if s.continuityUnknown && lastSequence > 0 {
        return false;
      }
      var lastPublished := s.nextSequence - 1;
      return !((|s.events| > 0 && lastSequence < s.events[0].sequence - 1 && !allowTruncatedStart)
               || (|s.events| == 0 && lastSequence < lastPublished && !allowTruncatedStart)
               || lastSequence > lastPublished);
    }

    method Register(id: Id)
      requires id in states
      modifies this`states, this`feeds, this`nextListener
      ensures Model() == Join(old(Model()), id)
    {
      var s := states[id];
      states := states[id := s.(listeners := s.listeners + {nextListener}, touchedAt := now)];
      feeds := feeds[nextListener := Feed(s.birth, LogSize(Model(), s.birth), s.nextSequence, [])];
      nextListener := nextListener + 1;
    }

    method Leave(id: Id, birth: nat, listener: nat)
      requires Valid()
      modifies this`states
      ensures Model() == Unsubscribe(old(Model()), id, birth, listener) && Valid() && Bounded(Model())
      ensures id in states && states[id].birth == birth ==> listener !in states[id].listeners
    {
      LeftKeeps(Model(), id, birth, listener);
      if id in states && states[id].birth == birth {
        var s := states[id].(listeners := states[id].listeners - {listener});
        if s.listeners == {} && |s.events| == 0 {
          DeleteState(id);
        } else {
          states := states[id := s];
        }
      }
      TrimHistoryOperations();
    }

    // ---------- timers, clock, closing ----------

    method HistoryTimer(id: Id)
      requires Valid()
      modifies this`states, this`logs
      ensures Model() == HistoryTimerFires(old(Model()), id) && Valid()
      ensures id in states && old(states)[id].historyTimer.Some? ==>
                !HasExpired(Model(), id) && (states[id].historyExpiresAt.Some? ==> states[id].historyTimer.Some? && states[id].historyTimer.value > now)
    {
      HistoryTimerKeeps(Model(), id);
      if id in states && states[id].historyTimer.Some? {
        HistoryTimerFollowsUp(Model(), id);
        ExpireOrSchedule(id);
      }
    }

    method ExpireOrSchedule(id: Id)
      requires id in states && states[id].historyTimer.Some?
      modifies this`states, this`logs
      ensures Model() == HistoryTimerFires(old(Model()), id)
    {
      var s := states[id].(historyTimer := None);
      states := states[id := s];
      if s.historyExpiresAt.None? {
        return;
      }
      if s.historyExpiresAt.value > now {
        Schedule(id, s.historyExpiresAt.value);
        return;
      }
      ExpireHistoryOf(id);
    }

    /** `scheduleHistoryExpiry`. */
    method Schedule(id: Id, expiresAt: int)
      requires id in states
      modifies this`states
      ensures states == old(states)[id := old(states)[id].(historyTimer := Some(now + Least(Greatest(1, expiresAt - now), MAX_TIMER_DELAY)))]
    {
      var delay := Least(Greatest(1, expiresAt - now), MAX_TIMER_DELAY);
      states := states[id := states[id].(historyTimer := Some(now + delay))];
    }

    method Tick(time: int)
      requires Valid() && time >= now
      modifies this`now
      ensures Model() == old(Model()).(now := time) && Valid()
    {
      TickKeeps(Model(), time);
      now := time;
    }

    method Shut()
      requires Valid()
      modifies this`closed, this`states, this`tombstones, this`timers
      ensures Model() == Close(old(Model())) && Valid()
      ensures closed && states == map[]
    {
      CloseKeeps(Model());
      if closed {
        return;
      }
      closed := true;
      var waiting := states.Keys;
      while waiting != {}
        invariant Model() == old(Model()).(closed := true, states := states)
        invariant states.Keys <= waiting
        decreases |waiting|
      {
        var id :| id in waiting;
        waiting := waiting - {id};
        DeleteState(id);
      }
      timers := multiset{};
      tombstones := map[];
      assert states == map[];
    }
  }
}
