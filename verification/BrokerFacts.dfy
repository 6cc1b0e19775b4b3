/** What every stream of a reachable broker retains, until when, and whether it can be resumed. */
module BrokerFacts {
  import opened Basics
  import opened InterviewModel
  import opened BrokerModel
  import opened BrokerInvariant
  import opened BrokerRuns

  /** How many events had been published when the history was last cleared. */
  function LastCleared(log: Log): nat {
    if log.clearings == [] then 0 else log.clearings[|log.clearings| - 1].at
  }

  /** As many events are retained as were published since the last clearing, up to the limit. A history has an expiry,
      not later than the time to live from now, and a timer pending for no later than the expiry. The continuity is
      unknown exactly for the streams noted as doubted. */
  ghost predicate Fact(b: Broker, id: Id) {
    id in b.states && b.states[id].birth in b.logs && FactOf(b, b.states[id], b.logs[b.states[id].birth])
  }

  predicate FactOf(b: Broker, s: Stream, log: Log) {
    && LastCleared(log) <= |log.events| && |s.events| == Least(b.config.historyLimit, |log.events| - LastCleared(log))
    && (s.events != [] <==> s.historyExpiresAt.Some?) && (s.historyTimer.Some? <==> s.historyExpiresAt.Some?)
    && (s.historyExpiresAt.Some? ==> s.historyTimer.value <= s.historyExpiresAt.value <= b.now + b.config.replayTtlMs)
    && (s.continuityUnknown <==> s.birth in b.doubted)
  }

  ghost predicate Facts(b: Broker) {
    && (forall id {:trigger Fact(b, id)} :: id in b.states ==> Fact(b, id))
    && (forall birth :: birth in b.doubted ==> birth < b.nextBirth)
  }

  // ---------- steps that change none of this ----------

  predicate QuietAt(b: Broker, c: Broker, id: Id) {
    && id in b.states && id in c.states && c.states[id].birth == b.states[id].birth && c.states[id].events == b.states[id].events
    && c.states[id].historyExpiresAt == b.states[id].historyExpiresAt && c.states[id].historyTimer == b.states[id].historyTimer
    && c.states[id].continuityUnknown == b.states[id].continuityUnknown
  }

  ghost predicate Quiet(b: Broker, c: Broker) {
    && c.config == b.config && c.now >= b.now && c.nextBirth == b.nextBirth && c.doubted == b.doubted && c.logs == b.logs
    && forall id {:trigger QuietAt(b, c, id)} :: id in c.states ==> QuietAt(b, c, id)
  }

  lemma QuietFacts(b: Broker, c: Broker)
    requires Facts(b) && Quiet(b, c)
    ensures Facts(c)
  {
    forall id | id in c.states ensures Fact(c, id) {
      assert QuietAt(b, c, id) && Fact(b, id);
    }
  }

  lemma LookedFacts(b: Broker, op: Operation)
    requires Facts(b)
    ensures Facts(AfterErasedCheck(b, op))
  {
    QuietFacts(b, AfterErasedCheck(b, op));
  }

  lemma DropFacts(b: Broker, id: Id)
    requires Facts(b)
    ensures Facts(Drop(b, id))
  {
    QuietFacts(b, Drop(b, id));
  }

  lemma TrimFacts(b: Broker)
    requires Facts(b)
    ensures Facts(Trim(b))
  {
    TrimRemoves(b.states, b.config.historyOperationLimit);
    QuietFacts(b, Trim(b));
  }

  // ---------- steps that do ----------

  /** One stream changed, with its own log and its own note; births are different, so the others did not. */
  lemma OneChanged(b: Broker, c: Broker, id: Id)
    requires Inv(b) && Facts(b) && id in b.states && c.config == b.config && c.now == b.now && c.nextBirth == b.nextBirth
    requires c.states.Keys == b.states.Keys && forall other :: other in c.states && other != id ==> c.states[other] == b.states[other]
    requires forall birth :: birth in b.logs && birth != b.states[id].birth ==> birth in c.logs && c.logs[birth] == b.logs[birth]
    requires forall birth :: birth != b.states[id].birth ==> (birth in c.doubted <==> birth in b.doubted)
    requires Fact(c, id)
    ensures Facts(c)
  {
    assert StreamOk(b, id);
    forall other | other in c.states ensures Fact(c, other) {
      if other != id {
        assert StreamOk(b, other) && Fact(b, other);
      }
    }
  }

  lemma ClearFacts(b: Broker, id: Id, why: Clearing)
    requires Inv(b) && Facts(b) && id in b.states && why.at == LogSize(b, b.states[id].birth)
    ensures Facts(ClearHistory(b, id, why))
  {
    NoneWhenClosed(b, id);
    assert Fact(b, id);
    OneChanged(b, ClearHistory(b, id, why), id);
  }

  lemma ExpireFacts(b: Broker, id: Id)
    requires Inv(b) && Facts(b)
    ensures Facts(ExpireHistory(b, id))
  {
    if HasExpired(b, id) && b.states[id].listeners != {} {
      ClearFacts(b, id, ExpiryNow(b, id));
    } else {
      QuietFacts(b, ExpireHistory(b, id));
    }
  }

  lemma SyncFacts(b: Broker, op: Operation)
    requires Inv(b) && Facts(b)
    ensures Facts(SyncAttempt(b, op))
  {
    if op.id in b.states && op.attemptCount > b.states[op.id].attemptCount {
      var c := Put(b, op.id, b.states[op.id].(attemptCount := op.attemptCount));
      QuietFacts(b, c);
      Rebook(b, op.id, b.states[op.id].(attemptCount := op.attemptCount));
      ClearFacts(c, op.id, LaterAttempt(LogSize(b, b.states[op.id].birth), b.states[op.id].attemptCount, op.attemptCount));
    }
  }

  lemma BornFacts(b: Broker, op: Operation, unknown: bool)
    requires Inv(b) && Facts(b)
    ensures Facts(Born(b, op, unknown))
  {
    var c := Born(b, op, unknown);
    forall id | id in c.states ensures Fact(c, id) {
      if id != op.id {
        assert StreamOk(b, id) && Fact(b, id);
      }
    }
  }

  lemma FoundFacts(b: Broker, op: Operation, unknown: bool)
    requires Inv(b) && Facts(b) && op.id in b.states
    ensures Facts(Found(b, op, unknown))
  {
    assert Fact(b, op.id) && StreamOk(b, op.id);
    OneChanged(b, Found(b, op, unknown), op.id);
  }

  lemma ReplaceFacts(b: Broker, op: Operation, unknown: bool)
    requires Inv(b) && Facts(b)
    ensures Facts(CreateState(Drop(b, op.id), op, unknown))
  {
    var d := Drop(b, op.id);
    DropKeeps(b, op.id);
    DropFacts(b, op.id);
    if !d.closed {
      BornFacts(d, op, unknown);
      TrimFacts(Born(d, op, unknown));
    }
  }

  lemma OpenFacts(b: Broker, op: Operation, unknown: bool)
    requires Inv(b) && Facts(b)
    ensures Facts(OpenState(b, op, unknown))
  {
    var e := ExpireHistory(b, op.id);
    ExpireKeeps(b, op.id);
    ExpireFacts(b, op.id);
    if op.id in e.states && SameTarget(e.states[op.id], op) {
      FoundFacts(e, op, unknown);
    } else {
      ReplaceFacts(e, op, unknown);
    }
  }

  lemma FindFacts(b: Broker, op: Operation, unknown: bool)
    requires Inv(b) && Facts(b)
    ensures Facts(FindState(b, op, unknown))
  {
    var looked := AfterErasedCheck(b, op);
    CheckKeeps(b, op);
    LookedFacts(b, op);
    DropFacts(looked, op.id);
    OpenFacts(looked, op, unknown);
  }

  lemma ReadyFacts(b: Broker, op: Operation, unknown: bool)
    requires Inv(b) && Facts(b)
    ensures Facts(Ready(b, op, unknown)) && Facts(FindState(b, op, unknown))
  {
    FindKeeps(b, op, unknown);
    FindFacts(b, op, unknown);
    SyncFacts(FindState(b, op, unknown), op);
  }

  // ---------- publishing ----------

  lemma PushedFact(b: Broker, s: Stream, log: Log, e: StreamEvent, failing: set<nat>)
    requires ValidConfig(b.config) && FactOf(b, s, log)
    ensures FactOf(b, Pushed(b, s, e, failing), log.(events := log.events + [e]))
  {
  }

  lemma ExtendFacts(b: Broker, id: Id, e: StreamEvent, failing: set<nat>)
    requires Inv(b) && Facts(b) && id in b.states
    ensures Facts(Extended(b, id, e, failing))
  {
    var c := Extended(b, id, e, failing);
    assert Fact(b, id);
    PushedFact(b, b.states[id], b.logs[b.states[id].birth], e, failing);
    assert FactOf(c, c.states[id], c.logs[c.states[id].birth]);
    OneChanged(b, c, id);
  }

  lemma PublishFacts(b: Broker, id: Id, birth: nat, e: StreamEvent, failing: set<nat>)
    requires Inv(b) && Facts(b)
    ensures Facts(Publish(b, id, birth, e, failing))
  {
    if id in b.states && b.states[id].birth == birth {
      ExtendFacts(b, id, e, failing);
      TrimFacts(Extended(b, id, e, failing));
      assert Publish(b, id, birth, e, failing) == Trim(Extended(b, id, e, failing));
    } else {
      TrimFacts(b);
      assert Publish(b, id, birth, e, failing) == Trim(b);
    }
  }

  lemma {:induction false} PublishAllFacts(b: Broker, id: Id, birth: nat, events: seq<StreamEvent>, failing: set<nat>)
    requires Inv(b) && Facts(b) && MayPushAll(b, id, birth, events)
    ensures Facts(PublishAll(b, id, birth, events, failing))
    decreases |events|
  {
    if events != [] {
      PublishFacts(b, id, birth, events[0], failing);
      PublishKeeps(b, id, birth, events[0], failing);
      MayPushRest(b, id, birth, events, failing);
      PublishAllFacts(Publish(b, id, birth, events[0], failing), id, birth, events[1..], failing);
    }
  }

  lemma EmitFacts(r: Broker, op: Operation, m: Message, failing: set<nat>)
    requires Inv(r) && Facts(r)
    ensures Facts(Emit(r, op, m, failing).0)
  {
    var taken := TakeNumbers(r, op.id, Numbers(m));
    TakeKeeps(r, op.id, Numbers(m));
    QuietFacts(r, taken);
    if HasNumbers(r, op.id, Numbers(m)) && TerminalOf(r.states[op.id].events).None? {
      TakenMayPush(r, op, m);
      PublishAllFacts(taken, op.id, r.states[op.id].birth, EventsOf(op, m, r.states[op.id].nextSequence), failing);
    }
  }

  lemma SendFacts(b: Broker, op: Operation, m: Message, unknown: bool, failing: set<nat>)
    requires Inv(b) && Facts(b)
    ensures Facts(Send(b, op, m, unknown, failing).0)
  {
    ReadyKeeps(b, op, unknown);
    ReadyFacts(b, op, unknown);
    EmitFacts(Ready(b, op, unknown), op, m, failing);
  }

  // ---------- the other steps ----------

  lemma AttachedFacts(f: Broker, op: Operation, last: int, truncated: bool)
    requires Inv(f) && Facts(f)
    ensures Facts(Attach(f, op, last, truncated).0)
  {
    var r := SyncAttempt(f, op);
    SyncFacts(f, op);
    if op.id in r.states {
      QuietFacts(r, Join(r, op.id));
    }
  }

  lemma TargetFacts(b: Broker, op: Operation)
    requires Inv(b) && Facts(b)
    ensures Facts(SubscribeTarget(b, op))
  {
    var e := ExpireHistory(b, op.id);
    ExpireFacts(b, op.id);
    QuietFacts(e, Erase(e, OperationGrave(op.id)));
  }

  lemma ListenOnFacts(target: Broker, op: Operation, last: int, truncated: bool)
    requires Inv(target) && Facts(target)
    ensures Facts(SubscribeOn(target, op, last, truncated).0)
  {
    AttachedFacts(target, op, last, truncated);
    FindKeeps(target, op, false);
    FindFacts(target, op, false);
    AttachedFacts(FindState(target, op, false), op, last, truncated);
  }

  lemma ListenFacts(b: Broker, op: Operation, last: int, truncated: bool)
    requires Inv(b) && Facts(b)
    ensures Facts(Subscribe(b, op, last, truncated).0)
  {
    var looked := AfterErasedCheck(b, op);
    CheckKeeps(b, op);
    LookedFacts(b, op);
    if !IsErased(b, op) {
      TargetFacts(looked, op);
      TargetKeeps(looked, op);
      ListenOnFacts(SubscribeTarget(looked, op), op, last, truncated);
    }
  }

  lemma BeginFacts(b: Broker, op: Operation)
    requires Inv(b) && Facts(b)
    ensures Facts(BeginAttempt(b, op))
  {
    var e := ExpireHistory(b, op.id);
    ExpireKeeps(b, op.id);
    ExpireFacts(b, op.id);
    DropFacts(e, op.id);
    SyncFacts(e, op);
  }

  lemma LeaveFacts(b: Broker, id: Id, birth: nat, listener: nat)
    requires Facts(b)
    ensures Facts(Unsubscribe(b, id, birth, listener))
  {
    QuietFacts(b, Left(b, id, birth, listener));
    TrimFacts(Left(b, id, birth, listener));
  }

  /** The timer that fires is set again when the history has not expired. */
  lemma TimerFacts(b: Broker, id: Id)
    requires Inv(b) && Facts(b)
    ensures Facts(HistoryTimerFires(b, id))
  {
    if id in b.states && b.states[id].historyTimer.Some? {
      assert Fact(b, id);
      var s := b.states[id];
      if s.historyExpiresAt.value > b.now {
        OneChanged(b, HistoryTimerFires(b, id), id);
      } else {
        ExpiredTimer(b, id);
      }
    }
  }

  lemma ExpiredTimer(b: Broker, id: Id)
    requires Inv(b) && Facts(b) && HasExpired(b, id) && b.states[id].historyTimer.Some?
    ensures Facts(HistoryTimerFires(b, id))
  {
    var c := Put(b, id, b.states[id].(historyTimer := None));
    NoneWhenClosed(b, id);
    assert Fact(b, id);
    if b.states[id].listeners == {} {
      QuietFacts(b, HistoryTimerFires(b, id));
    } else {
      OneChanged(b, HistoryTimerFires(b, id), id);
    }
  }

  lemma StepFacts(b: Broker, s: Step)
    requires Inv(b) && Facts(b) && Enabled(b, s)
    ensures Facts(Next(b, s))
  {
    match s {
      case Begin(op) => BeginFacts(b, op);
      case Publishing(op, m, unknown, failing) => SendFacts(b, op, m, unknown, failing);
      case Listen(op, last, truncated) => ListenFacts(b, op, last, truncated);
      case Leave(id, birth, listener) => LeaveFacts(b, id, birth, listener);
      case Look(id) => ExpireFacts(b, id);
      case Bury(grave) => QuietFacts(b, Erase(b, grave));
      case HistoryTimer(id) => TimerFacts(b, id);
      case GraveTimer(t) => QuietFacts(b, TombstoneTimerFires(b, t));
      case Tick(now) => QuietFacts(b, b.(now := now));
      case Shut => QuietFacts(b, Close(b));
    }
  }

  lemma {:induction false} RunFacts(b: Broker, steps: seq<Step>)
    requires Inv(b) && Facts(b) && Possible(b, steps)
    ensures Facts(Run(b, steps))
    decreases |steps|
  {
    if steps != [] {
      StepFacts(b, steps[0]);
      StepKeeps(b, steps[0]);
      RunFacts(Next(b, steps[0]), steps[1..]);
    }
  }

  /** In every reachable broker, for every stream: retained are the last events published since its history was last
      cleared, as many as the limit allows; they expire within the time to live, with a timer pending for it; and the
      continuity is unknown exactly when the stream was created at a later attempt or published on with unknown
      continuity. */
  lemma EveryStreamIsKept(config: Config, now: int, steps: seq<Step>, id: Id)
    requires ValidConfig(config) && Possible(Fresh(config, now), steps) && id in Run(Fresh(config, now), steps).states
    ensures var b := Run(Fresh(config, now), steps);
            var s := b.states[id];
            && s.birth in b.logs && LastCleared(b.logs[s.birth]) <= |b.logs[s.birth].events|
            && s.events == LastOf(b.logs[s.birth].events[LastCleared(b.logs[s.birth])..], config.historyLimit)
            && (s.events != [] <==> s.historyExpiresAt.Some?) && (s.historyTimer.Some? <==> s.historyExpiresAt.Some?)
            && (s.historyExpiresAt.Some? ==> s.historyTimer.value <= s.historyExpiresAt.value <= b.now + config.replayTtlMs)
            && (s.continuityUnknown <==> s.birth in b.doubted)
  {
    var b := Run(Fresh(config, now), steps);
    RunKeeps(Fresh(config, now), steps);
    RunFacts(Fresh(config, now), steps);
    assert StreamOk(b, id) && Fact(b, id);
  }
}
