/** When a stream stays the same along a run. */
module BrokerStay {
  import opened Basics
  import opened Sequences
  import opened InterviewModel
  import opened BrokerModel
  import opened BrokerInvariant
  import opened BrokerRuns
  import opened BrokerTrim
  import opened BrokerGaps
  import opened BrokerResume
  import opened BrokerAnswers

  /** The stream to keep: its operation, birth and target, the listeners that stay on it, and the operations that
      may come to retain history. */
  datatype Keep = Keep(id: Id, birth: nat, accountId: Id, interviewId: Id, staying: set<nat>, retaining: set<Id>)

  /** The stream is there, and trimming cannot delete it: a listener stays, or not too many operations retain history. */
  ghost predicate Holds(b: Broker, k: Keep) {
    && k.id in b.states && b.states[k.id].birth == k.birth
    && b.states[k.id].accountId == k.accountId && b.states[k.id].interviewId == k.interviewId
    && k.staying <= b.states[k.id].listeners && Retained(b.states) <= k.retaining
    && (k.staying != {} || |k.retaining| <= b.config.historyOperationLimit)
  }

  lemma TrimHolds(b: Broker, k: Keep)
    requires Holds(b, k)
    ensures Holds(Trim(b), k)
  {
    TrimRemoves(b.states, b.config.historyOperationLimit);
    if k.staying == {} {
      SubsetCard(Retained(b.states), k.retaining);
      NothingTrimmed(b.states, b.config.historyOperationLimit);
    }
  }

  lemma ExpireHolds(b: Broker, id: Id, k: Keep)
    requires Inv(b) && Holds(b, k) && (id == k.id ==> k.staying != {} || !HasExpired(b, id))
    ensures Holds(ExpireHistory(b, id), k)
  {
    NoneWhenClosed(b, k.id);
  }

  lemma SyncHolds(b: Broker, op: Operation, k: Keep)
    requires Inv(b) && Holds(b, k)
    ensures Holds(SyncAttempt(b, op), k)
  {
    NoneWhenClosed(b, k.id);
  }

  /** The operation is another one, or of the same target, and its stream, if to be kept, has not expired unheard. */
  ghost predicate Meets(b: Broker, op: Operation, k: Keep) {
    op.id == k.id ==> op.accountId == k.accountId && op.interviewId == k.interviewId && (k.staying != {} || !HasExpired(b, op.id))
  }

  lemma NotErasedWhileHeld(b: Broker, op: Operation, k: Keep)
    requires Inv(b) && Holds(b, k) && Meets(b, op, k)
    ensures op.id == k.id ==> !IsErased(b, op)
  {
    if op.id == k.id {
      NotErased(b, op);
    }
  }

  lemma CreateHolds(b: Broker, op: Operation, unknown: bool, k: Keep)
    requires Holds(b, k) && op.id != k.id
    ensures Holds(CreateState(Drop(b, op.id), op, unknown), k)
  {
    var d := Drop(b, op.id);
    if !d.closed {
      TrimHolds(Born(d, op, unknown), k);
    }
  }

  lemma FindHolds(b: Broker, op: Operation, unknown: bool, k: Keep)
    requires Inv(b) && Holds(b, k) && Meets(b, op, k)
    ensures Holds(FindState(b, op, unknown), k)
  {
    var looked := AfterErasedCheck(b, op);
    CheckKeeps(b, op);
    NotErasedWhileHeld(b, op, k);
    if !IsErased(b, op) {
      OpenHolds(looked, op, unknown, k);
    }
  }

  lemma OpenHolds(b: Broker, op: Operation, unknown: bool, k: Keep)
    requires Inv(b) && Holds(b, k) && Meets(b, op, k)
    ensures Holds(OpenState(b, op, unknown), k)
  {
    var e := ExpireHistory(b, op.id);
    ExpireHolds(b, op.id, k);
    if op.id == k.id || (op.id in e.states && SameTarget(e.states[op.id], op)) {
      assert Holds(Found(e, op, unknown), k);
    } else {
      CreateHolds(e, op, unknown, k);
    }
  }

  lemma TakeHolds(b: Broker, id: Id, n: nat, k: Keep)
    requires Holds(b, k) && (id == k.id ==> HasNumbers(b, id, n))
    ensures Holds(TakeNumbers(b, id, n), k)
  {
  }

  lemma PublishHolds(b: Broker, id: Id, birth: nat, e: StreamEvent, failing: set<nat>, k: Keep)
    requires Holds(b, k) && id in k.retaining && (id == k.id ==> k.staying !! failing)
    ensures Holds(Publish(b, id, birth, e, failing), k)
  {
    if id in b.states && b.states[id].birth == birth {
      var c := Extended(b, id, e, failing);
      assert Retained(c.states) <= Retained(b.states) + {id};
      TrimHolds(c, k);
    } else {
      TrimHolds(b, k);
    }
  }

  lemma {:induction false} PublishAllHolds(b: Broker, id: Id, birth: nat, events: seq<StreamEvent>, failing: set<nat>, k: Keep)
    requires Holds(b, k) && id in k.retaining && (id == k.id ==> k.staying !! failing)
    ensures Holds(PublishAll(b, id, birth, events, failing), k)
    decreases |events|
  {
    if events != [] {
      PublishHolds(b, id, birth, events[0], failing, k);
      PublishAllHolds(Publish(b, id, birth, events[0], failing), id, birth, events[1..], failing, k);
    }
  }

  lemma EmitHolds(r: Broker, op: Operation, m: Message, failing: set<nat>, k: Keep)
    requires Holds(r, k) && op.id in k.retaining && (op.id == k.id ==> k.staying !! failing && HasNumbers(r, op.id, Numbers(m)))
    ensures Holds(Emit(r, op, m, failing).0, k)
  {
    TakeHolds(r, op.id, Numbers(m), k);
    if op.id in r.states {
      PublishAllHolds(TakeNumbers(r, op.id, Numbers(m)), op.id, r.states[op.id].birth, EventsOf(op, m, r.states[op.id].nextSequence), failing, k);
    }
  }

  lemma ReadyHolds(b: Broker, op: Operation, unknown: bool, k: Keep)
    requires Inv(b) && Holds(b, k) && Meets(b, op, k)
    ensures Holds(FindState(b, op, unknown), k) && Holds(Ready(b, op, unknown), k)
  {
    FindKeeps(b, op, unknown);
    FindHolds(b, op, unknown, k);
    SyncHolds(FindState(b, op, unknown), op, k);
  }

  /** A found stream has the numbers it had. */
  lemma ReadyNumbers(b: Broker, op: Operation, unknown: bool, k: Keep, n: nat)
    requires Inv(b) && Holds(b, k) && Meets(b, op, k) && op.id == k.id && HasNumbers(b, op.id, n)
    ensures HasNumbers(Ready(b, op, unknown), op.id, n)
  {
    ReadyHolds(b, op, unknown, k);
    ReadyPrepares(b, op, unknown);
  }

  lemma SendHolds(b: Broker, op: Operation, m: Message, unknown: bool, failing: set<nat>, k: Keep)
    requires Inv(b) && Holds(b, k) && Meets(b, op, k) && op.id in k.retaining
    requires op.id == k.id ==> k.staying !! failing && HasNumbers(b, op.id, Numbers(m))
    ensures Holds(Send(b, op, m, unknown, failing).0, k)
  {
    ReadyHolds(b, op, unknown, k);
    if op.id == k.id {
      ReadyNumbers(b, op, unknown, k, Numbers(m));
    }
    EmitHolds(Ready(b, op, unknown), op, m, failing, k);
  }

  lemma BeginHolds(b: Broker, op: Operation, k: Keep)
    requires Inv(b) && Holds(b, k) && Meets(b, op, k)
    ensures Holds(BeginAttempt(b, op), k)
  {
    var e := ExpireHistory(b, op.id);
    ExpireKeeps(b, op.id);
    ExpireHolds(b, op.id, k);
    SyncHolds(e, op, k);
  }

  lemma AttachHolds(f: Broker, op: Operation, last: int, truncated: bool, k: Keep)
    requires Inv(f) && Holds(f, k)
    ensures Holds(Attach(f, op, last, truncated).0, k)
  {
    var r := SyncAttempt(f, op);
    SyncHolds(f, op, k);
    if op.id in r.states {
      assert Holds(Join(r, op.id), k);
    }
  }

  /** A stream of another target belongs to another operation. */
  lemma TargetHolds(b: Broker, op: Operation, k: Keep)
    requires Inv(b) && Holds(b, k) && Meets(b, op, k)
    ensures Holds(SubscribeTarget(b, op), k)
    ensures op.id == k.id ==> op.id in SubscribeTarget(b, op).states
  {
    ExpireHolds(b, op.id, k);
  }

  lemma ListenOnHolds(target: Broker, op: Operation, last: int, truncated: bool, k: Keep)
    requires Inv(target) && Holds(target, k) && (op.id == k.id ==> op.id in target.states)
    ensures Holds(SubscribeOn(target, op, last, truncated).0, k)
  {
    AttachHolds(target, op, last, truncated, k);
    if op.id !in target.states {
      FindHolds(target, op, false, k);
      FindKeeps(target, op, false);
      AttachHolds(FindState(target, op, false), op, last, truncated, k);
    }
  }

  lemma ListenHolds(b: Broker, op: Operation, last: int, truncated: bool, k: Keep)
    requires Inv(b) && Holds(b, k) && Meets(b, op, k)
    ensures Holds(Subscribe(b, op, last, truncated).0, k)
  {
    var looked := AfterErasedCheck(b, op);
    CheckKeeps(b, op);
    if !IsErased(b, op) {
      TargetHolds(looked, op, k);
      TargetKeeps(looked, op);
      ListenOnHolds(SubscribeTarget(looked, op), op, last, truncated, k);
    }
  }

  lemma LeaveHolds(b: Broker, id: Id, birth: nat, listener: nat, k: Keep)
    requires Holds(b, k)
    requires id == k.id && birth == k.birth ==> listener !in k.staying && (k.staying != {} || b.states[id].events != [])
    ensures Holds(Unsubscribe(b, id, birth, listener), k)
  {
    var c := Left(b, id, birth, listener);
    assert Retained(c.states) <= Retained(b.states);
    assert k.id in c.states;
    TrimHolds(c, k);
  }

  lemma RetimedHolds(b: Broker, id: Id, timer: Option<int>, k: Keep)
    requires Holds(b, k) && id in b.states
    ensures Holds(Put(b, id, b.states[id].(historyTimer := timer)), k)
  {
  }

  lemma HistoryTimerHolds(b: Broker, id: Id, k: Keep)
    requires Inv(b) && Holds(b, k) && (id == k.id ==> k.staying != {} || !HasExpired(b, id))
    ensures Holds(HistoryTimerFires(b, id), k)
  {
    if id in b.states && b.states[id].historyTimer.Some? {
      var s, c := b.states[id], Put(b, id, b.states[id].(historyTimer := None));
      RetimedKeeps(b, id, None);
      RetimedHolds(b, id, None, k);
      if s.historyExpiresAt.Some? && s.historyExpiresAt.value > b.now {
        RetimedHolds(b, id, Some(b.now + Least(Greatest(1, s.historyExpiresAt.value - b.now), MAX_TIMER_DELAY)), k);
      } else {
        ExpireHolds(c, id, k);
      }
    }
  }

  // ---------- steps that spare a stream ----------

  /** The listeners that the step takes off the stream. */
  function Leaving(s: Step, id: Id, birth: nat): set<nat> {
    match s
    case Leave(other, otherBirth, listener) => if other == id && otherBirth == birth then {listener} else {}
    case Publishing(op, _, _, failing) => if op.id == id then failing else {}
    case _ => {}
  }

  function Filling(s: Step): set<Id> {
    if s.Publishing? then {s.op.id} else {}
  }

  /** Does the step look whether this stream has expired? */
  predicate Looks(s: Step, id: Id) {
    match s
    case Begin(op) => op.id == id
    case Publishing(op, _, _, _) => op.id == id
    case Listen(op, _, _) => op.id == id
    case Look(other) => other == id
    case HistoryTimer(other) => other == id
    case _ => false
  }

  /** The step does not close the broker, erase the stream, use its operation's id for another target, or ask it
      for numbers it does not have; and a listener stays, or else the stream is not found expired, its operation
      is not one of too many that retain history, and it has history when its last listener leaves. */
  predicate Spares(b: Broker, s: Step, id: Id) {
    id in b.states &&
    var t := b.states[id];
    && (t.listeners - Leaving(s, id, t.birth) != {} ||
        (!(Looks(s, id) && HasExpired(b, id)) && |Retained(b.states) + Filling(s)| <= b.config.historyOperationLimit
         && (s.Leave? && s.id == id && s.birth == t.birth ==> t.events != [])))
    && match s
       case Shut => false
       case Bury(grave) => !Covers(grave, id, t)
       case Begin(op) => op.id == id ==> SameTarget(t, op)
       case Listen(op, _, _) => op.id == id ==> SameTarget(t, op)
       case Publishing(op, m, _, _) => op.id == id ==> SameTarget(t, op) && HasNumbers(b, id, Numbers(m))
       case _ => true
  }

  function ToKeep(b: Broker, s: Step, id: Id): Keep
    requires id in b.states
  {
    var t := b.states[id];
    Keep(id, t.birth, t.accountId, t.interviewId, t.listeners - Leaving(s, id, t.birth), Retained(b.states) + Filling(s))
  }

  lemma StepHolds(b: Broker, s: Step, id: Id)
    requires Inv(b) && Enabled(b, s) && Spares(b, s, id)
    ensures Holds(Next(b, s), ToKeep(b, s, id))
  {
    var k := ToKeep(b, s, id);
    match s {
      case Begin(op) => BeginHolds(b, op, k);
      case Publishing(op, m, unknown, failing) => SendHolds(b, op, m, unknown, failing, k);
      case Listen(op, last, truncated) => ListenHolds(b, op, last, truncated, k);
      case Leave(other, birth, listener) => LeaveHolds(b, other, birth, listener, k);
      case Look(other) => ExpireHolds(b, other, k);
      case Bury(grave) =>
      case HistoryTimer(other) => HistoryTimerHolds(b, other, k);
      case GraveTimer(t) =>
      case Tick(now) =>
      case Shut =>
    }
  }

  /** Every step of the run spares the stream. */
  ghost predicate AllSpare(b: Broker, steps: seq<Step>, id: Id)
    decreases |steps|
  {
    steps == [] || (Spares(b, steps[0], id) && AllSpare(Next(b, steps[0]), steps[1..], id))
  }

  /** A stream keeps its birth along every run whose steps spare it. */
  lemma {:induction false} SparedStreamStays(b: Broker, steps: seq<Step>, id: Id)
    requires Inv(b) && Possible(b, steps) && id in b.states && AllSpare(b, steps, id)
    ensures id in Run(b, steps).states && Run(b, steps).states[id].birth == b.states[id].birth
    decreases |steps|
  {
    if steps != [] {
      StepHolds(b, steps[0], id);
      StepKeeps(b, steps[0]);
      SparedStreamStays(Next(b, steps[0]), steps[1..], id);
    }
  }

  /** Resuming after number `last` on a stream that was spared since, by this subscription too, is exact: the client
      is replayed everything published on the stream after `last`, which is all it was not sent. */
  lemma ResumeIsExactWhenSpared(b: Broker, steps: seq<Step>, op: Operation, last: nat)
    requires Inv(b) && GapFree(b) && NeverFails(b.config) && Possible(b, steps) && last > 0
    requires op.id in b.states && AllSpare(b, steps, op.id)
    requires Spares(Run(b, steps), Listen(op, last, false), op.id) && Subscribe(Run(b, steps), op, last, false).1.Some?
    ensures var (c, found) := Subscribe(Run(b, steps), op, last, false);
            b.states[op.id].birth in c.logs && found.value.replay == Unseen(c, op.id, b.states[op.id].birth, last)
  {
    var d := Run(b, steps);
    var birth := b.states[op.id].birth;
    RunKeeps(b, steps);
    RunGapFree(b, steps);
    SparedStreamStays(b, steps, op.id);
    StepHolds(d, Listen(op, last, false), op.id);
    SubscribeFacts(d, op, last, false);
    assert StreamOk(d, op.id);
    ResumeIsExactIffSameStream(d, op, birth, last);
  }
}
