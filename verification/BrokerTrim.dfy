/** Trimming: which streams go, and how many operations retain history in every reachable broker. */
module BrokerTrim {
  import opened Basics
  import opened Sequences
  import opened InterviewModel
  import opened BrokerModel
  import opened BrokerInvariant
  import opened BrokerRuns

  // ---------- sort once and delete a slice ----------

  /** Streams of different operations have different births. */
  ghost predicate Distinct(states: map<Id, Stream>) {
    forall a, b :: a in states && b in states && a != b ==> states[a].birth != states[b].birth
  }

  lemma BirthsDiffer(b: Broker)
    requires Inv(b)
    ensures Distinct(b.states)
  {
    forall x, y | x in b.states && y in b.states && x != y ensures b.states[x].birth != b.states[y].birth {
      assert StreamOk(b, x) && StreamOk(b, y);
    }
  }

  /** The ids in order, least recently touched first. */
  ghost predicate InOrder(states: map<Id, Stream>, order: seq<Id>) {
    && (forall id :: id in order ==> id in states)
    && (forall i, j :: 0 <= i < j < |order| ==> Older(states[order[i]], states[order[j]]))
  }

  /** The idle streams in order. */
  ghost predicate IdleInOrder(states: map<Id, Stream>, order: seq<Id>) {
    InOrder(states, order) && forall id :: id in order <==> id in Idle(states)
  }

  /** The first `n` ids. */
  function Front(order: seq<Id>, n: nat): set<Id>
    requires n <= |order|
  {
    set id | id in order[..n]
  }

  lemma FrontSnoc(order: seq<Id>, n: nat)
    requires n < |order|
    ensures Front(order, n + 1) == Front(order, n) + {order[n]}
  {
    assert order[..n + 1] == order[..n] + [order[n]];
  }

  lemma FrontIsIdle(states: map<Id, Stream>, order: seq<Id>, n: nat)
    requires IdleInOrder(states, order) && n <= |order|
    ensures Front(order, n) <= Idle(states) <= Retained(states)
  {
    forall id | id in Front(order, n) ensures id in Idle(states) {
      assert id in order;
    }
  }

  lemma {:induction false} FrontCard(states: map<Id, Stream>, order: seq<Id>, n: nat)
    requires InOrder(states, order) && n <= |order|
    ensures |Front(order, n)| == n
  {
    if n > 0 {
      FrontCard(states, order, n - 1);
      FrontSnoc(order, n - 1);
      assert order[n - 1] !in order[..n - 1];
    }
  }

  /** The rank of a stream is its place in the order. */
  lemma RankIsPlace(states: map<Id, Stream>, order: seq<Id>, k: nat)
    requires IdleInOrder(states, order) && k < |order|
    ensures order[k] in Idle(states) && Rank(states, order[k]) == k
  {
    assert order[k] in order;
    FrontIsIdle(states, order, k);
    FrontCard(states, order, k);
    var before := set other | other in states && other in Idle(states) && Older(states[other], states[order[k]]);
    forall other ensures other in before <==> other in Front(order, k) {
      if other in before {
        var i :| 0 <= i < |order| && order[i] == other;
      }
    }
    assert before == Front(order, k);
  }

  /** How many of the idle streams go. */
  function Overflow(states: map<Id, Stream>, limit: nat, idle: nat): (n: nat)
    ensures n <= idle
  {
    if Excess(states, limit) <= idle then Excess(states, limit) else idle
  }

  /** Trimming deletes the first part of the idle streams in order, all at once: as many as are too many, or
      all of them. */
  lemma TrimIsSlice(states: map<Id, Stream>, limit: nat, order: seq<Id>)
    requires IdleInOrder(states, order)
    ensures TrimStates(states, limit) == states - Front(order, Overflow(states, limit, |order|))
  {
    var n := Overflow(states, limit, |order|);
    forall id ensures id in Trimmed(states, limit) <==> id in Front(order, n) {
      if id in order {
        var k :| 0 <= k < |order| && order[k] == id;
        RankIsPlace(states, order, k);
        InFront(states, order, k, n);
      } else {
        assert id !in order[..n];
      }
    }
    assert Trimmed(states, limit) == Front(order, n);
  }

  lemma InFront(states: map<Id, Stream>, order: seq<Id>, k: nat, n: nat)
    requires InOrder(states, order) && k < |order| && n <= |order|
    ensures order[k] in Front(order, n) <==> k < n
  {
    assert order[k] in order;
    assert k < n ==> order[..n][k] == order[k];
    assert forall i :: 0 <= i < n && k >= n ==> order[i] != order[k];
  }

  lemma NothingTrimmed(states: map<Id, Stream>, limit: nat)
    requires |Retained(states)| <= limit
    ensures TrimStates(states, limit) == states
  {
    assert Trimmed(states, limit) == {};
  }

  /** Idle streams can always be put in order. */
  lemma {:induction false} Ordered(states: map<Id, Stream>, ids: set<Id>) returns (order: seq<Id>)
    requires Distinct(states) && ids <= states.Keys
    ensures InOrder(states, order) && forall id :: id in order <==> id in ids
    decreases |ids|
  {
    if ids == {} {
      return [];
    }
    var oldest := OldestOf(states, ids);
    var rest := Ordered(states, ids - {oldest});
    order := [oldest] + rest;
    assert forall i :: 0 < i < |order| ==> order[i] in rest;
  }

  lemma {:induction false} OldestOf(states: map<Id, Stream>, ids: set<Id>) returns (oldest: Id)
    requires Distinct(states) && ids <= states.Keys && ids != {}
    ensures oldest in ids && forall other :: other in ids && other != oldest ==> Older(states[oldest], states[other])
    decreases |ids|
  {
    var id :| id in ids;
    oldest := id;
    if ids != {id} {
      var other := OldestOf(states, ids - {id});
      if Older(states[other], states[id]) {
        oldest := other;
      }
    }
  }

  // ---------- the bound on retained history ----------

  /** Not too many operations retain history, or all those that do have a listener. */
  ghost predicate Bounded(b: Broker) {
    |Retained(b.states)| <= b.config.historyOperationLimit || Idle(b.states) == {}
  }

  /** After trimming. */
  lemma TrimBounds(b: Broker)
    requires Inv(b)
    ensures Bounded(Trim(b))
  {
    BirthsDiffer(b);
    var order := Ordered(b.states, Idle(b.states));
    TrimIsSlice(b.states, b.config.historyOperationLimit, order);
    AfterSlice(b.states, order, b.config.historyOperationLimit);
  }

  lemma AfterSlice(states: map<Id, Stream>, order: seq<Id>, limit: nat)
    requires IdleInOrder(states, order)
    ensures var rest := states - Front(order, Overflow(states, limit, |order|));
            |Retained(rest)| <= limit || Idle(rest) == {}
  {
    var n := Overflow(states, limit, |order|);
    var rest := states - Front(order, n);
    if n == |order| {
      assert order[..n] == order;
    } else {
      FrontCard(states, order, n);
      FrontIsIdle(states, order, n);
      assert Retained(states) == Retained(rest) + Front(order, n) && Retained(rest) !! Front(order, n);
    }
  }

  /** No stream came to retain history, and none that does lost its last listener. */
  ghost predicate Shrinks(b: Broker, c: Broker) {
    Retained(c.states) <= Retained(b.states) && Idle(c.states) <= Idle(b.states) && c.config == b.config
  }

  lemma ShrinksBounded(b: Broker, c: Broker)
    requires Bounded(b) && Shrinks(b, c)
    ensures Bounded(c)
  {
    SubsetCard(Retained(c.states), Retained(b.states));
  }

  lemma FindBounded(b: Broker, op: Operation, unknown: bool)
    requires Inv(b) && Bounded(b)
    ensures Bounded(FindState(b, op, unknown))
  {
    var looked := AfterErasedCheck(b, op);
    CheckKeeps(b, op);
    assert Shrinks(b, looked);
    if IsErased(b, op) {
      ShrinksBounded(b, Drop(looked, op.id));
    } else {
      ShrinksBounded(b, looked);
      OpenBounded(looked, op, unknown);
    }
  }

  lemma ExpireShrinks(b: Broker, id: Id)
    ensures Shrinks(b, ExpireHistory(b, id))
  {
  }

  lemma CreateBounded(b: Broker, op: Operation, unknown: bool)
    requires Inv(b) && Bounded(b) && !IsErased(b, op)
    ensures Bounded(CreateState(b, op, unknown))
  {
    if !b.closed {
      BirthKeeps(b, op, unknown);
      TrimBounds(Born(b, op, unknown));
    }
  }

  lemma FoundBounded(b: Broker, op: Operation, unknown: bool)
    requires Bounded(b) && op.id in b.states
    ensures Bounded(Found(b, op, unknown))
  {
    ShrinksBounded(b, Found(b, op, unknown));
  }

  lemma ReplaceBounded(b: Broker, op: Operation, unknown: bool)
    requires Inv(b) && Bounded(b) && !IsErased(b, op)
    ensures Bounded(CreateState(Drop(b, op.id), op, unknown))
  {
    DropKeeps(b, op.id);
    ShrinksBounded(b, Drop(b, op.id));
    CreateBounded(Drop(b, op.id), op, unknown);
  }

  lemma OpenBounded(b: Broker, op: Operation, unknown: bool)
    requires Inv(b) && Bounded(b) && !IsErased(b, op)
    ensures Bounded(OpenState(b, op, unknown))
  {
    var e := ExpireHistory(b, op.id);
    ExpireKeeps(b, op.id);
    ExpireShrinks(b, op.id);
    ShrinksBounded(b, e);
    if op.id in e.states && SameTarget(e.states[op.id], op) {
      FoundBounded(e, op, unknown);
    } else {
      ReplaceBounded(e, op, unknown);
    }
  }

  lemma SyncShrinks(b: Broker, op: Operation)
    ensures Shrinks(b, SyncAttempt(b, op))
  {
  }

  lemma TakeShrinks(b: Broker, id: Id, n: nat)
    ensures Shrinks(b, TakeNumbers(b, id, n))
  {
  }

  lemma ReadyBounded(b: Broker, op: Operation, unknown: bool)
    requires Inv(b) && Bounded(b)
    ensures Bounded(Ready(b, op, unknown)) && Bounded(FindState(b, op, unknown))
  {
    FindBounded(b, op, unknown);
    SyncShrinks(FindState(b, op, unknown), op);
    ShrinksBounded(FindState(b, op, unknown), Ready(b, op, unknown));
  }

  /** Publishing ends with trimming. */
  lemma PublishBounds(b: Broker, id: Id, birth: nat, e: StreamEvent, failing: set<nat>)
    requires Inv(b) && (id in b.states && b.states[id].birth == birth ==> MayPush(b, id, e))
    ensures Bounded(Publish(b, id, birth, e, failing))
  {
    if id in b.states && b.states[id].birth == birth {
      PushKeeps(b, id, e, failing);
      TrimBounds(Extended(b, id, e, failing));
    } else {
      TrimBounds(b);
    }
  }

  lemma {:induction false} PublishAllBounds(b: Broker, id: Id, birth: nat, events: seq<StreamEvent>, failing: set<nat>)
    requires Inv(b) && MayPushAll(b, id, birth, events) && Bounded(b)
    ensures Bounded(PublishAll(b, id, birth, events, failing))
    decreases |events|
  {
    if events != [] {
      PublishBounds(b, id, birth, events[0], failing);
      PublishKeeps(b, id, birth, events[0], failing);
      MayPushRest(b, id, birth, events, failing);
      PublishAllBounds(Publish(b, id, birth, events[0], failing), id, birth, events[1..], failing);
    }
  }

  lemma EmitBounds(r: Broker, op: Operation, m: Message, failing: set<nat>)
    requires Inv(r) && Bounded(r)
    ensures Bounded(Emit(r, op, m, failing).0)
  {
    var taken := TakeNumbers(r, op.id, Numbers(m));
    TakeKeeps(r, op.id, Numbers(m));
    TakeShrinks(r, op.id, Numbers(m));
    ShrinksBounded(r, taken);
    if HasNumbers(r, op.id, Numbers(m)) && TerminalOf(r.states[op.id].events).None? {
      TakenMayPush(r, op, m);
      PublishAllBounds(taken, op.id, r.states[op.id].birth, EventsOf(op, m, r.states[op.id].nextSequence), failing);
    }
  }

  lemma SendBounded(b: Broker, op: Operation, m: Message, unknown: bool, failing: set<nat>)
    requires Inv(b) && Bounded(b)
    ensures Bounded(Send(b, op, m, unknown, failing).0)
  {
    ReadyKeeps(b, op, unknown);
    ReadyBounded(b, op, unknown);
    EmitBounds(Ready(b, op, unknown), op, m, failing);
  }

  lemma AttachShrinks(f: Broker, op: Operation, last: int, truncated: bool)
    ensures Shrinks(f, Attach(f, op, last, truncated).0)
  {
    SyncShrinks(f, op);
    var r := SyncAttempt(f, op);
    if op.id in r.states {
      assert Shrinks(r, Join(r, op.id));
    }
  }

  lemma TargetBounded(b: Broker, op: Operation)
    requires Bounded(b)
    ensures Bounded(SubscribeTarget(b, op))
  {
    var e := ExpireHistory(b, op.id);
    ExpireShrinks(b, op.id);
    ShrinksBounded(b, e);
    ShrinksBounded(e, Erase(e, OperationGrave(op.id)));
  }

  lemma ListenBounded(b: Broker, op: Operation, last: int, truncated: bool)
    requires Inv(b) && Bounded(b)
    ensures Bounded(Subscribe(b, op, last, truncated).0)
  {
    var looked := AfterErasedCheck(b, op);
    CheckKeeps(b, op);
    ShrinksBounded(b, looked);
    if !IsErased(b, op) {
      TargetBounded(looked, op);
      TargetKeeps(looked, op);
      ListenOnBounded(SubscribeTarget(looked, op), op, last, truncated);
    }
  }

  lemma ListenOnBounded(target: Broker, op: Operation, last: int, truncated: bool)
    requires Inv(target) && Bounded(target)
    ensures Bounded(SubscribeOn(target, op, last, truncated).0)
  {
    var f := FindState(target, op, false);
    FindBounded(target, op, false);
    AttachShrinks(target, op, last, truncated);
    AttachShrinks(f, op, last, truncated);
    ShrinksBounded(target, Attach(target, op, last, truncated).0);
    ShrinksBounded(f, Attach(f, op, last, truncated).0);
  }

  lemma LeaveBounded(b: Broker, id: Id, birth: nat, listener: nat)
    requires Inv(b)
    ensures Bounded(Unsubscribe(b, id, birth, listener))
  {
    LeftKeeps(b, id, birth, listener);
    TrimBounds(Left(b, id, birth, listener));
  }

  lemma TimerShrinks(b: Broker, id: Id)
    ensures Shrinks(b, HistoryTimerFires(b, id))
  {
    if id in b.states && b.states[id].historyTimer.Some? {
      var c := Put(b, id, b.states[id].(historyTimer := None));
      assert Shrinks(b, c);
      ExpireShrinks(c, id);
    }
  }

  lemma BeginShrinks(b: Broker, op: Operation)
    ensures Shrinks(b, BeginAttempt(b, op))
  {
    ExpireShrinks(b, op.id);
    SyncShrinks(ExpireHistory(b, op.id), op);
  }

  lemma StepBounded(b: Broker, s: Step)
    requires Inv(b) && Bounded(b) && Enabled(b, s)
    ensures Bounded(Next(b, s))
  {
    match s {
      case Begin(op) => BeginShrinks(b, op); ShrinksBounded(b, BeginAttempt(b, op));
      case Publishing(op, m, unknown, failing) => SendBounded(b, op, m, unknown, failing);
      case Listen(op, last, truncated) => ListenBounded(b, op, last, truncated);
      case Leave(id, birth, listener) => LeaveBounded(b, id, birth, listener);
      case Look(id) => ExpireShrinks(b, id); ShrinksBounded(b, ExpireHistory(b, id));
      case Bury(grave) => ShrinksBounded(b, Erase(b, grave));
      case HistoryTimer(id) => TimerShrinks(b, id); ShrinksBounded(b, HistoryTimerFires(b, id));
      case GraveTimer(t) => ShrinksBounded(b, TombstoneTimerFires(b, t));
      case Tick(now) => ShrinksBounded(b, b.(now := now));
      case Shut => ShrinksBounded(b, Close(b));
    }
  }

  lemma {:induction false} RunBounded(b: Broker, steps: seq<Step>)
    requires Inv(b) && Bounded(b) && Possible(b, steps)
    ensures Bounded(Run(b, steps))
    decreases |steps|
  {
    if steps != [] {
      StepBounded(b, steps[0]);
      StepKeeps(b, steps[0]);
      RunBounded(Next(b, steps[0]), steps[1..]);
    }
  }

  /** In every reachable broker at most `historyOperationLimit` operations retain history, or every stream with
      history has a listener. */
  lemma RetainedAreBounded(config: Config, now: int, steps: seq<Step>)
    requires ValidConfig(config) && Possible(Fresh(config, now), steps)
    ensures var b := Run(Fresh(config, now), steps);
            |Retained(b.states)| <= config.historyOperationLimit || forall id :: id in b.states && b.states[id].events != [] ==> b.states[id].listeners != {}
  {
    var b := Run(Fresh(config, now), steps);
    RunKeeps(Fresh(config, now), steps);
    RunBounded(Fresh(config, now), steps);
    if |Retained(b.states)| > config.historyOperationLimit {
      forall id | id in b.states && b.states[id].events != [] ensures b.states[id].listeners != {} {
        assert id !in Idle(b.states);
      }
    }
  }
}
