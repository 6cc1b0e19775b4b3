/** When no event mapping fails, the numbers of a stream have no gaps. */
module BrokerGaps {
  import opened Basics
  import opened InterviewModel
  import opened BrokerModel
  import opened BrokerInvariant
  import opened BrokerRuns

  /** The next number of the stream is `ahead` more than one past the size of its log. */
  predicate Ahead(b: Broker, id: Id, ahead: nat) {
    id in b.states && b.states[id].birth in b.logs && b.states[id].nextSequence == |b.logs[b.states[id].birth].events| + 1 + ahead
  }

  ghost predicate GapFree(b: Broker) {
    forall id {:trigger Ahead(b, id, 0)} :: id in b.states ==> Ahead(b, id, 0)
  }

  /** The stream is as before, as far as its log and numbers go. */
  predicate Still(b: Broker, c: Broker, id: Id) {
    && id in b.states && id in c.states
    && c.states[id].birth == b.states[id].birth && c.states[id].nextSequence == b.states[id].nextSequence
    && (b.states[id].birth in b.logs ==> b.states[id].birth in c.logs && LogSize(c, b.states[id].birth) == LogSize(b, b.states[id].birth))
  }

  /** Streams may go, but what stays has the same log and numbers. */
  ghost predicate Calm(b: Broker, c: Broker) {
    forall id {:trigger Still(b, c, id)} :: id in c.states ==> Still(b, c, id)
  }

  lemma CalmKeeps(b: Broker, c: Broker)
    requires Calm(b, c)
    ensures GapFree(b) ==> GapFree(c)
  {
    if GapFree(b) {
      forall id | id in c.states ensures Ahead(c, id, 0) {
        assert Still(b, c, id);
        assert Ahead(b, id, 0);
      }
    }
  }

  lemma SameLogsCalm(b: Broker, c: Broker)
    requires c.logs == b.logs
    requires forall id :: id in c.states ==>
               id in b.states && c.states[id].birth == b.states[id].birth && c.states[id].nextSequence == b.states[id].nextSequence
    ensures Calm(b, c) && (GapFree(b) ==> GapFree(c))
  {
    forall id | id in c.states ensures Still(b, c, id) {
    }
    CalmKeeps(b, c);
  }

  lemma ClearCalm(b: Broker, id: Id, why: Clearing)
    ensures Calm(b, ClearHistory(b, id, why))
  {
    forall other | other in ClearHistory(b, id, why).states ensures Still(b, ClearHistory(b, id, why), other) {
    }
  }

  lemma CalmTwice(b: Broker, c: Broker, d: Broker)
    requires Calm(b, c) && Calm(c, d)
    ensures Calm(b, d)
  {
    forall id | id in d.states ensures Still(b, d, id) {
      assert Still(c, d, id) && Still(b, c, id);
    }
  }

  lemma ExpireCalm(b: Broker, id: Id)
    ensures Calm(b, ExpireHistory(b, id))
  {
    SameLogsCalm(b, b);
    SameLogsCalm(b, Drop(b, id));
    if HasExpired(b, id) {
      ClearCalm(b, id, ExpiryNow(b, id));
    }
  }

  lemma SyncCalm(b: Broker, op: Operation)
    ensures Calm(b, SyncAttempt(b, op))
  {
    SameLogsCalm(b, b);
    if op.id in b.states && op.attemptCount > b.states[op.id].attemptCount {
      var c := Put(b, op.id, b.states[op.id].(attemptCount := op.attemptCount));
      var why := LaterAttempt(LogSize(b, b.states[op.id].birth), b.states[op.id].attemptCount, op.attemptCount);
      SameLogsCalm(b, c);
      ClearCalm(c, op.id, why);
      CalmTwice(b, c, ClearHistory(c, op.id, why));
    }
  }

  lemma TrimCalm(b: Broker)
    ensures Calm(b, Trim(b))
  {
    TrimRemoves(b.states, b.config.historyOperationLimit);
    SameLogsCalm(b, Trim(b));
  }

  lemma CreateGapFree(b: Broker, op: Operation, continuityUnknown: bool)
    requires Inv(b) && GapFree(b)
    ensures GapFree(CreateState(b, op, continuityUnknown))
  {
    if !b.closed {
      var c := Born(b, op, continuityUnknown);
      forall id | id in c.states ensures Ahead(c, id, 0) {
        assert id != op.id ==> Ahead(b, id, 0) && StreamOk(b, id);
      }
      TrimCalm(c);
      CalmKeeps(c, Trim(c));
    }
  }

  lemma ReplaceGapFree(b: Broker, op: Operation, continuityUnknown: bool)
    requires Inv(b) && GapFree(b)
    ensures GapFree(CreateState(Drop(b, op.id), op, continuityUnknown))
  {
    DropKeeps(b, op.id);
    SameLogsCalm(b, Drop(b, op.id));
    CreateGapFree(Drop(b, op.id), op, continuityUnknown);
  }

  lemma OpenGapFree(b: Broker, op: Operation, continuityUnknown: bool)
    requires Inv(b) && GapFree(b) && !IsErased(b, op)
    ensures GapFree(OpenState(b, op, continuityUnknown))
  {
    var e := ExpireHistory(b, op.id);
    ExpireKeeps(b, op.id);
    ExpireCalm(b, op.id);
    CalmKeeps(b, e);
    if op.id in e.states && SameTarget(e.states[op.id], op) {
      SameLogsCalm(e, Found(e, op, continuityUnknown));
    } else {
      ReplaceGapFree(e, op, continuityUnknown);
    }
  }

  lemma CheckCalm(b: Broker, op: Operation)
    ensures Calm(b, AfterErasedCheck(b, op))
  {
    var first := LookAt(b, OperationGrave(op.id));
    var second := LookAt(first, AccountGrave(op.accountId));
    var third := LookAt(second, InterviewGrave(op.accountId, op.interviewId));
    assert first.logs == b.logs && first.states == b.states;
    assert second.logs == b.logs && second.states == b.states;
    assert third.logs == b.logs && third.states == b.states;
    assert AfterErasedCheck(b, op) == first || AfterErasedCheck(b, op) == second || AfterErasedCheck(b, op) == third;
    SameLogsCalm(b, AfterErasedCheck(b, op));
  }

  lemma FindGapFree(b: Broker, op: Operation, continuityUnknown: bool)
    requires Inv(b) && GapFree(b)
    ensures GapFree(FindState(b, op, continuityUnknown))
  {
    var looked := AfterErasedCheck(b, op);
    CheckKeeps(b, op);
    CheckCalm(b, op);
    CalmKeeps(b, looked);
    if IsErased(b, op) {
      SameLogsCalm(looked, Drop(looked, op.id));
    } else {
      assert !IsErased(looked, op);
      OpenGapFree(looked, op, continuityUnknown);
    }
  }

  lemma ReadyGapFree(b: Broker, op: Operation, continuityUnknown: bool)
    requires Inv(b) && GapFree(b)
    ensures GapFree(FindState(b, op, continuityUnknown)) && GapFree(Ready(b, op, continuityUnknown))
  {
    var f := FindState(b, op, continuityUnknown);
    FindGapFree(b, op, continuityUnknown);
    SyncCalm(f, op);
    CalmKeeps(f, SyncAttempt(f, op));
  }

  // ---------- publishing ----------

  /** One stream is ahead of its log, the others are not. */
  ghost predicate AheadAt(b: Broker, id: Id, ahead: nat) {
    Ahead(b, id, ahead) && forall other {:trigger Ahead(b, other, 0)} :: other in b.states && other != id ==> Ahead(b, other, 0)
  }

  lemma TakeAhead(b: Broker, id: Id, n: nat)
    requires GapFree(b) && HasNumbers(b, id, n)
    ensures AheadAt(TakeNumbers(b, id, n), id, n)
  {
    var c := TakeNumbers(b, id, n);
    assert Ahead(b, id, 0);
    forall other | other in c.states && other != id ensures Ahead(c, other, 0) {
      assert Ahead(b, other, 0);
    }
  }

  /** Publishing on a stream that is one ahead closes the gap; on one two ahead it leaves one, or drops the stream. */
  lemma PublishCatchesUp(b: Broker, id: Id, e: StreamEvent, failing: set<nat>, ahead: nat)
    requires Inv(b) && AheadAt(b, id, ahead + 1)
    ensures var c := Publish(b, id, b.states[id].birth, e, failing);
            && (forall other {:trigger Ahead(c, other, 0)} :: other in c.states && other != id ==> Ahead(c, other, 0))
            && (id in c.states ==> Ahead(c, id, ahead) && c.states[id].birth == b.states[id].birth)
  {
    var s := b.states[id];
    var d := Extended(b, id, e, failing);
    TrimCalm(d);
    assert StreamOk(b, id);
    forall other | other in Trim(d).states && other != id ensures Ahead(Trim(d), other, 0) {
      assert Still(d, Trim(d), other);
      assert Ahead(b, other, 0) && StreamOk(b, other);
    }
    assert id in Trim(d).states ==> Still(d, Trim(d), id);
  }

  /** Publishing as many events as the stream is ahead. */
  lemma {:induction false} PublishAllCatchesUp(b: Broker, id: Id, birth: nat, events: seq<StreamEvent>, failing: set<nat>)
    requires Inv(b) && MayPushAll(b, id, birth, events)
    requires if id in b.states then b.states[id].birth == birth && AheadAt(b, id, |events|) else GapFree(b)
    ensures GapFree(PublishAll(b, id, birth, events, failing))
    decreases |events|
  {
    if events == [] {
      CaughtUp(b, id);
    } else {
      var c := Publish(b, id, birth, events[0], failing);
      PublishKeeps(b, id, birth, events[0], failing);
      MayPushRest(b, id, birth, events, failing);
      if id in b.states {
        PublishCatchesUp(b, id, events[0], failing, |events| - 1);
        if id !in c.states {
          CaughtUp(c, id);
        }
      } else {
        TrimCalm(b);
        CalmKeeps(b, Trim(b));
      }
      PublishAllCatchesUp(c, id, birth, events[1..], failing);
    }
  }

  lemma CaughtUp(b: Broker, id: Id)
    requires forall other {:trigger Ahead(b, other, 0)} :: other in b.states && other != id ==> Ahead(b, other, 0)
    requires id in b.states ==> Ahead(b, id, 0)
    ensures GapFree(b)
  {
  }

  /** A taken number is always published when no mapping fails. */
  ghost predicate NeverFails(c: Config) {
    && (forall op, text, at {:trigger c.textMaps(op, text, at)} :: c.textMaps(op, text, at))
    && (forall op {:trigger c.terminalMaps(op)} :: c.terminalMaps(op))
  }

  lemma EmitGapFree(r: Broker, op: Operation, m: Message, failing: set<nat>)
    requires Inv(r) && GapFree(r) && NeverFails(r.config)
    ensures GapFree(Emit(r, op, m, failing).0)
  {
    if op.id in r.states && TerminalOf(r.states[op.id].events).None? {
      if HasNumbers(r, op.id, Numbers(m)) {
        EmittedGapFree(r, op, m, failing);
      } else {
        SameLogsCalm(r, Drop(r, op.id));
      }
    }
  }

  lemma EmittedGapFree(r: Broker, op: Operation, m: Message, failing: set<nat>)
    requires Inv(r) && GapFree(r) && NeverFails(r.config) && HasNumbers(r, op.id, Numbers(m)) && TerminalOf(r.states[op.id].events).None?
    ensures GapFree(Emit(r, op, m, failing).0)
  {
    TakeAhead(r, op.id, Numbers(m));
    TakeKeeps(r, op.id, Numbers(m));
    TakenMayPush(r, op, m);
    assert Maps(r.config, op, m);
    PublishAllCatchesUp(TakeNumbers(r, op.id, Numbers(m)), op.id, r.states[op.id].birth, EventsOf(op, m, r.states[op.id].nextSequence), failing);
  }

  lemma SendGapFree(b: Broker, op: Operation, m: Message, unknown: bool, failing: set<nat>)
    requires Inv(b) && GapFree(b) && NeverFails(b.config)
    ensures GapFree(Send(b, op, m, unknown, failing).0)
  {
    ReadyKeeps(b, op, unknown);
    ReadyGapFree(b, op, unknown);
    EmitGapFree(Ready(b, op, unknown), op, m, failing);
  }

  // ---------- the other steps ----------

  lemma AttachGapFree(f: Broker, op: Operation, last: int, truncated: bool)
    requires GapFree(f)
    ensures GapFree(Attach(f, op, last, truncated).0)
  {
    var r := SyncAttempt(f, op);
    SyncCalm(f, op);
    CalmKeeps(f, r);
    if op.id in r.states {
      SameLogsCalm(r, Join(r, op.id));
    }
  }

  lemma TargetGapFree(b: Broker, op: Operation)
    requires GapFree(b)
    ensures GapFree(SubscribeTarget(b, op))
  {
    var e := ExpireHistory(b, op.id);
    ExpireCalm(b, op.id);
    CalmKeeps(b, e);
    SameLogsCalm(e, Erase(e, OperationGrave(op.id)));
  }

  lemma SubscribeOnGapFree(target: Broker, op: Operation, last: int, truncated: bool)
    requires Inv(target) && GapFree(target)
    ensures GapFree(SubscribeOn(target, op, last, truncated).0)
  {
    AttachGapFree(target, op, last, truncated);
    FindGapFree(target, op, false);
    AttachGapFree(FindState(target, op, false), op, last, truncated);
  }

  lemma ListenGapFree(b: Broker, op: Operation, last: int, truncated: bool)
    requires Inv(b) && GapFree(b)
    ensures GapFree(Subscribe(b, op, last, truncated).0)
  {
    var looked := AfterErasedCheck(b, op);
    CheckKeeps(b, op);
    CheckCalm(b, op);
    CalmKeeps(b, looked);
    if !IsErased(b, op) {
      TargetGapFree(looked, op);
      TargetKeeps(looked, op);
      SubscribeOnGapFree(SubscribeTarget(looked, op), op, last, truncated);
    }
  }

  lemma BeginGapFree(b: Broker, op: Operation)
    requires GapFree(b)
    ensures GapFree(BeginAttempt(b, op))
  {
    var e := ExpireHistory(b, op.id);
    ExpireCalm(b, op.id);
    CalmKeeps(b, e);
    SameLogsCalm(e, Drop(e, op.id));
    SyncCalm(e, op);
    CalmKeeps(e, SyncAttempt(e, op));
  }

  lemma LeaveGapFree(b: Broker, id: Id, birth: nat, listener: nat)
    requires GapFree(b)
    ensures GapFree(Unsubscribe(b, id, birth, listener))
  {
    var c := Left(b, id, birth, listener);
    SameLogsCalm(b, c);
    TrimCalm(c);
    CalmKeeps(c, Trim(c));
  }

  lemma RetimedCalm(b: Broker, id: Id, s: Stream)
    requires id in b.states && s.birth == b.states[id].birth && s.nextSequence == b.states[id].nextSequence
    ensures GapFree(b) ==> GapFree(Put(b, id, s))
  {
    SameLogsCalm(b, Put(b, id, s));
  }

  lemma HistoryTimerGapFree(b: Broker, id: Id)
    requires GapFree(b)
    ensures GapFree(HistoryTimerFires(b, id))
  {
    if id in b.states && b.states[id].historyTimer.Some? {
      var s := b.states[id].(historyTimer := None);
      RetimedCalm(b, id, s);
      ExpireCalm(Put(b, id, s), id);
      CalmKeeps(Put(b, id, s), ExpireHistory(Put(b, id, s), id));
      if s.historyExpiresAt.Some? {
        RetimedCalm(b, id, s.(historyTimer := Some(b.now + Least(Greatest(1, s.historyExpiresAt.value - b.now), MAX_TIMER_DELAY))));
      }
    }
  }

  lemma StepGapFree(b: Broker, s: Step)
    requires Inv(b) && GapFree(b) && NeverFails(b.config) && Enabled(b, s)
    ensures GapFree(Next(b, s))
  {
    match s {
      case Begin(op) => BeginGapFree(b, op);
      case Publishing(op, m, unknown, failing) => SendGapFree(b, op, m, unknown, failing);
      case Listen(op, last, truncated) => ListenGapFree(b, op, last, truncated);
      case Leave(id, birth, listener) => LeaveGapFree(b, id, birth, listener);
      case Look(id) => ExpireCalm(b, id); CalmKeeps(b, ExpireHistory(b, id));
      case Bury(grave) => SameLogsCalm(b, Erase(b, grave));
      case HistoryTimer(id) => HistoryTimerGapFree(b, id);
      case GraveTimer(t) => SameLogsCalm(b, TombstoneTimerFires(b, t));
      case Tick(now) => SameLogsCalm(b, b.(now := now));
      case Shut => SameLogsCalm(b, Close(b));
    }
  }

  lemma {:induction false} RunGapFree(b: Broker, steps: seq<Step>)
    requires Inv(b) && GapFree(b) && NeverFails(b.config) && Possible(b, steps)
    ensures GapFree(Run(b, steps))
    decreases |steps|
  {
    if steps != [] {
      StepGapFree(b, steps[0]);
      StepKeeps(b, steps[0]);
      RunGapFree(Next(b, steps[0]), steps[1..]);
    }
  }

  /** Increasing numbers below one past the size of the log are 1, 2, 3, ... */
  lemma {:induction false} Numbered(log: seq<StreamEvent>, k: nat)
    requires Increasing(log, |log| + 1) && k < |log|
    ensures log[k].sequence == k + 1
    decreases |log|
  {
    var n := |log| - 1;
    AtLeast(log[..n], log[n].sequence);
    assert log[n].sequence == n + 1;
    if k < n {
      Numbered(log[..n], k);
    }
  }

  lemma {:induction false} AtLeast(log: seq<StreamEvent>, next: int)
    requires Increasing(log, next)
    ensures next >= |log| + 1
  {
    if log != [] {
      AtLeast(log[..|log| - 1], log[|log| - 1].sequence);
    }
  }

  /** When no mapping fails, the events retained on any stream of any reachable broker are numbered without
      gaps, and the last of them is the last number given out. */
  lemma RetainedAreContiguous(config: Config, now: int, steps: seq<Step>, id: Id, k: nat)
    requires ValidConfig(config) && NeverFails(config) && Possible(Fresh(config, now), steps)
    requires id in Run(Fresh(config, now), steps).states && k < |Run(Fresh(config, now), steps).states[id].events|
    ensures var s := Run(Fresh(config, now), steps).states[id];
            s.events[k].sequence == s.nextSequence - |s.events| + k
  {
    var b := Run(Fresh(config, now), steps);
    RunKeeps(Fresh(config, now), steps);
    RunGapFree(Fresh(config, now), steps);
    StreamIsContiguous(b, id, k);
  }

  lemma StreamIsContiguous(b: Broker, id: Id, k: nat)
    requires Inv(b) && GapFree(b) && id in b.states && k < |b.states[id].events|
    ensures b.states[id].events[k].sequence == b.states[id].nextSequence - |b.states[id].events| + k
  {
    assert StreamOk(b, id) && Ahead(b, id, 0);
    var log, s := b.logs[b.states[id].birth].events, b.states[id];
    Numbered(log, |log| - |s.events| + k);
  }
}
