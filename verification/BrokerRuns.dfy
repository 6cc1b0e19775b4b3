/** Runs of the broker: what subscribers get, and how long erasure holds. */
module BrokerRuns {
  import opened Sequences
  import opened InterviewModel
  import opened BrokerModel
  import opened BrokerInvariant

  datatype Step =
    | Begin(op: Operation)
    | Publishing(op: Operation, message: Message, continuityUnknown: bool, failing: set<nat>)
    | Listen(op: Operation, lastSequence: int, allowTruncatedStart: bool)
    | Leave(id: Id, birth: nat, listener: nat)
    | Look(id: Id)
    | Bury(grave: Grave)
    | HistoryTimer(id: Id)
    | GraveTimer(timer: TombstoneTimer)
    | Tick(now: int)
    | Shut

  /** Timers fire when they are due and not earlier; the clock never goes back. */
  predicate Enabled(b: Broker, s: Step) {
    match s
    case HistoryTimer(id) => id in b.states && b.states[id].historyTimer.Some? && b.states[id].historyTimer.value <= b.now
    case GraveTimer(t) => t in b.timers && t.due <= b.now
    case Tick(now) => now >= b.now
    case _ => true
  }

  ghost function Next(b: Broker, s: Step): Broker {
    match s
    case Begin(op) => BeginAttempt(b, op)
    case Publishing(op, m, unknown, failing) => Send(b, op, m, unknown, failing).0
    case Listen(op, last, truncated) => Subscribe(b, op, last, truncated).0
    case Leave(id, birth, listener) => Unsubscribe(b, id, birth, listener)
    case Look(id) => ExpireHistory(b, id)
    case Bury(grave) => Erase(b, grave)
    case HistoryTimer(id) => HistoryTimerFires(b, id)
    case GraveTimer(t) => TombstoneTimerFires(b, t)
    case Tick(now) => b.(now := now)
    case Shut => Close(b)
  }

  /** Every step is enabled when it is taken. */
  ghost predicate Possible(b: Broker, steps: seq<Step>)
    decreases |steps|
  {
    steps == [] || (Enabled(b, steps[0]) && Possible(Next(b, steps[0]), steps[1..]))
  }

  ghost function Run(b: Broker, steps: seq<Step>): Broker
    decreases |steps|
  {
    if steps == [] then b else Run(Next(b, steps[0]), steps[1..])
  }

  lemma StepKeeps(b: Broker, s: Step)
    requires Inv(b) && Enabled(b, s)
    ensures Kept(b, Next(b, s))
  {
    match s {
      case Begin(op) => BeginKeeps(b, op);
      case Publishing(op, m, unknown, failing) => SendKeeps(b, op, m, unknown, failing);
      case Listen(op, last, truncated) => SubscribeKeeps(b, op, last, truncated);
      case Leave(id, birth, listener) => UnsubscribeKeeps(b, id, birth, listener);
      case Look(id) => ExpireKeeps(b, id);
      case Bury(grave) => MarkedCovers(b, grave);
      case HistoryTimer(id) => HistoryTimerKeeps(b, id);
      case GraveTimer(t) => TombstoneTimerKeeps(b, t);
      case Tick(now) => TickKeeps(b, now);
      case Shut => CloseKeeps(b);
    }
  }

  lemma {:induction false} RunKeeps(b: Broker, steps: seq<Step>)
    requires Inv(b) && Possible(b, steps)
    ensures Kept(b, Run(b, steps))
    decreases |steps|
  {
    Unchanged(b);
    if steps != [] {
      StepKeeps(b, steps[0]);
      RunKeeps(Next(b, steps[0]), steps[1..]);
      KeptTwice(b, Next(b, steps[0]), Run(b, steps));
    }
  }

  /** Every reachable broker refines its logs: each stream retains the end of everything published on it,
      within the limit, numbers increase, and at most one terminal event is retained, as the last one. */
  lemma EveryRunKeeps(config: Config, now: int, steps: seq<Step>)
    requires ValidConfig(config) && Possible(Fresh(config, now), steps)
    ensures Inv(Run(Fresh(config, now), steps))
  {
    RunKeeps(Fresh(config, now), steps);
  }

  /** The steps are possible from `b` and lead to `c`. */
  ghost predicate Reaches(b: Broker, steps: seq<Step>, c: Broker) {
    Possible(b, steps) && Run(b, steps) == c
  }

  lemma {:induction false} OneMore(b: Broker, steps: seq<Step>, c: Broker, s: Step)
    requires Reaches(b, steps, c) && Enabled(c, s)
    ensures Reaches(b, steps + [s], Next(c, s))
    decreases |steps|
  {
    if steps == [] {
      assert (steps + [s])[1..] == [];
    } else {
      OneMore(Next(b, steps[0]), steps[1..], c, s);
      assert (steps + [s])[1..] == steps[1..] + [s];
    }
  }

  // ---------- replay and delivery ----------

  lemma {:induction false} NoneAfter(events: seq<StreamEvent>, last: int, next: int)
    requires Increasing(events, next) && next - 1 <= last
    ensures Filter(After(last), events) == []
  {
    if events != [] {
      var n := |events| - 1;
      NoneAfter(events[..n], last, events[n].sequence);
      FilterAppend(After(last), events[..n], [events[n]]);
      assert events == events[..n] + [events[n]];
    }
  }

  lemma {:induction false} AllAfter(events: seq<StreamEvent>, last: int)
    requires forall e :: e in events ==> e.sequence > last
    ensures Filter(After(last), events) == events
  {
    if events != [] {
      AllAfter(events[1..], last);
    }
  }

  lemma {:induction false} IncreasingPrefix(log: seq<StreamEvent>, n: nat, next: int)
    requires Increasing(log, next) && n < |log|
    ensures Increasing(log[..n], log[n].sequence)
    decreases |log|
  {
    if n < |log| - 1 {
      IncreasingPrefix(log[..|log| - 1], n, log[|log| - 1].sequence);
      assert log[..|log| - 1][..n] == log[..n];
    }
  }

  /** What is retained after `last` is all of the log after `last`, when nothing after it was cut. */
  lemma WindowIsEnough(window: seq<StreamEvent>, log: seq<StreamEvent>, last: int, next: int)
    requires Increasing(log, next) && IsSuffix(window, log)
    requires if window != [] then last >= window[0].sequence - 1 else last >= next - 1
    ensures Filter(After(last), window) == Filter(After(last), log)
  {
    var cut := |log| - |window|;
    assert log == log[..cut] + window;
    FilterAppend(After(last), log[..cut], window);
    if window == [] {
      NoneAfter(log, last, next);
    } else {
      IncreasingPrefix(log, cut, next);
      NoneAfter(log[..cut], last, window[0].sequence);
    }
  }

  /** What a successful subscription finds and leaves: its listener is on the operation's stream and will be sent
      what is published from the end of the log on; the replay is everything published before that after number
      `last`, unless a truncated start was allowed. */
  ghost predicate Attached(c: Broker, id: Id, sub: Subscription, last: int, truncated: bool) {
    && id in c.states && c.states[id].birth == sub.birth && sub.listener in c.states[id].listeners
    && sub.birth in c.logs && c.logs[sub.birth].owner == id && sub.listener in c.feeds
    && c.feeds[sub.listener].received == [] && c.feeds[sub.listener].start == |c.logs[sub.birth].events|
    && c.feeds[sub.listener].birth == sub.birth && c.feeds[sub.listener].floor > last
    && (!truncated ==> sub.replay == Filter(After(last), c.logs[sub.birth].events))
  }

  lemma AttachFacts(f: Broker, op: Operation, last: int, truncated: bool)
    requires Inv(f) && Attach(f, op, last, truncated).1.Some?
    ensures Attached(Attach(f, op, last, truncated).0, op.id, Attach(f, op, last, truncated).1.value, last, truncated)
  {
    var r := SyncAttempt(f, op);
    SyncKeeps(f, op);
    assert StreamOk(r, op.id);
    var s := r.states[op.id];
    if !truncated {
      WindowIsEnough(s.events, r.logs[s.birth].events, last, s.nextSequence);
    }
  }

  lemma SubscribeAttaches(b: Broker, op: Operation, last: int, truncated: bool) returns (f: Broker)
    requires Inv(b) && Subscribe(b, op, last, truncated).1.Some?
    ensures Inv(f) && Subscribe(b, op, last, truncated) == Attach(f, op, last, truncated)
  {
    var looked := AfterErasedCheck(b, op);
    CheckKeeps(b, op);
    var target := SubscribeTarget(looked, op);
    TargetKeeps(looked, op);
    FindKeeps(target, op, false);
    f := if op.id in target.states then target else FindState(target, op, false);
  }

  lemma SubscribeFacts(b: Broker, op: Operation, last: int, truncated: bool)
    requires Inv(b) && Subscribe(b, op, last, truncated).1.Some?
    ensures Attached(Subscribe(b, op, last, truncated).0, op.id, Subscribe(b, op, last, truncated).1.value, last, truncated)
  {
    var f := SubscribeAttaches(b, op, last, truncated);
    AttachFacts(f, op, last, truncated);
  }

  lemma JoinedSplit(log: seq<StreamEvent>, log': seq<StreamEvent>, last: int, floor: int)
    requires log <= log' && floor > last && forall e :: e in log'[|log|..] ==> e.sequence >= floor
    ensures Filter(After(last), log') == Filter(After(last), log) + log'[|log|..]
  {
    assert log' == log + log'[|log|..];
    FilterAppend(After(last), log, log'[|log|..]);
    AllAfter(log'[|log|..], last);
  }

  /** Exactly-once delivery: a subscription without truncated start replays exactly the events published after
      `last` on its stream, and at any later time while it is still registered, the replay followed by what
      the listener was sent is exactly the events published after `last` so far: no gap, no duplicate, no
      reordering. */
  lemma DeliveryIsExact(b: Broker, op: Operation, last: int, steps: seq<Step>, id: Id)
    requires Inv(b) && Subscribe(b, op, last, false).1.Some? && Possible(Subscribe(b, op, last, false).0, steps)
    ensures var (c, found) := Subscribe(b, op, last, false);
            var d, sub := Run(c, steps), found.value;
            && sub.birth in c.logs && sub.replay == Filter(After(last), c.logs[sub.birth].events)
            && (id in d.states && sub.listener in d.states[id].listeners ==>
                  && sub.birth in d.logs && sub.listener in d.feeds && d.states[id].birth == sub.birth
                  && sub.replay + d.feeds[sub.listener].received == Filter(After(last), d.logs[sub.birth].events))
  {
    var (c, found) := Subscribe(b, op, last, false);
    var d, sub := Run(c, steps), found.value;
    SubscribeFacts(b, op, last, false);
    SubscribeKeeps(b, op, last, false);
    RunKeeps(c, steps);
    assert LogGrows(c, d, sub.birth) && FeedGrows(c, d, sub.listener);
    if id in d.states && sub.listener in d.states[id].listeners {
      assert StreamOk(d, id);
      assert ListenerOk(d, sub.listener, d.states[id].birth);
      JoinedSplit(c.logs[sub.birth].events, d.logs[sub.birth].events, last, d.feeds[sub.listener].floor);
    }
  }
}
