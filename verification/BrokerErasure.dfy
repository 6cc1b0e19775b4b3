/** How long an erasure holds. */
module BrokerErasure {
  import opened Basics
  import opened InterviewModel
  import opened BrokerModel
  import opened BrokerInvariant
  import opened BrokerRuns

  /** Tombstones end within the erasure time; and when that time fits a timer, no timer is due before its
      tombstone has expired. */
  ghost predicate Graves(b: Broker) {
    && (forall g {:trigger b.tombstones[g]} :: g in b.tombstones ==> b.tombstones[g] <= b.now + b.config.erasureTtlMs)
    && (b.config.erasureTtlMs <= MAX_TIMER_DELAY ==> forall t :: t in b.timers ==> t.due >= t.expiresAt)
  }

  /** The tombstone has expired, or is still there, possibly renewed. */
  predicate GraveKept(b: Broker, c: Broker, g: Grave) {
    g in b.tombstones && b.tombstones[g] > c.now ==> g in c.tombstones && c.tombstones[g] >= b.tombstones[g]
  }

  /** A tombstone that has not expired stays, unless the broker is closed. */
  ghost predicate GravesKept(b: Broker, c: Broker) {
    && Graves(c) && c.now >= b.now && c.config == b.config
    && (c.closed || forall g {:trigger GraveKept(b, c, g)} :: GraveKept(b, c, g))
    && (b.closed ==> c.closed)
  }

  lemma KeptGravesTwice(b: Broker, c: Broker, d: Broker)
    requires GravesKept(b, c) && GravesKept(c, d)
    ensures GravesKept(b, d)
  {
    if !d.closed {
      forall g ensures GraveKept(b, d, g) {
        assert GraveKept(b, c, g) && GraveKept(c, d, g);
      }
    }
  }

  lemma SameGraves(b: Broker, c: Broker)
    requires Graves(b) && c.tombstones == b.tombstones && c.timers == b.timers && c.now == b.now && c.config == b.config && c.closed == b.closed
    ensures GravesKept(b, c)
  {
  }

  lemma LookAtGraves(b: Broker, g: Grave)
    requires Graves(b)
    ensures GravesKept(b, LookAt(b, g))
  {
  }

  lemma CheckGraves(b: Broker, op: Operation)
    requires Graves(b)
    ensures GravesKept(b, AfterErasedCheck(b, op))
  {
    var first := LookAt(b, OperationGrave(op.id));
    LookAtGraves(b, OperationGrave(op.id));
    var second := LookAt(first, AccountGrave(op.accountId));
    LookAtGraves(first, AccountGrave(op.accountId));
    KeptGravesTwice(b, first, second);
    LookAtGraves(second, InterviewGrave(op.accountId, op.interviewId));
    KeptGravesTwice(b, second, LookAt(second, InterviewGrave(op.accountId, op.interviewId)));
  }

  lemma EraseGraves(b: Broker, g: Grave)
    requires Graves(b) && ValidConfig(b.config)
    ensures GravesKept(b, Erase(b, g))
  {
  }

  /** The parts of a broker that erasure is about. */
  ghost predicate SameEra(b: Broker, c: Broker) {
    c.tombstones == b.tombstones && c.timers == b.timers && c.now == b.now && c.config == b.config && c.closed == b.closed
  }

  lemma ExpireEra(b: Broker, id: Id)
    ensures SameEra(b, ExpireHistory(b, id))
  {
  }

  lemma CreateEra(b: Broker, op: Operation, continuityUnknown: bool)
    ensures SameEra(b, CreateState(b, op, continuityUnknown))
  {
  }

  lemma OpenEra(b: Broker, op: Operation, continuityUnknown: bool)
    ensures SameEra(b, OpenState(b, op, continuityUnknown))
  {
    var e := ExpireHistory(b, op.id);
    ExpireEra(b, op.id);
    CreateEra(Drop(e, op.id), op, continuityUnknown);
  }

  lemma SyncEra(b: Broker, op: Operation)
    ensures SameEra(b, SyncAttempt(b, op))
  {
  }

  lemma TakeEra(b: Broker, id: Id, n: nat)
    ensures SameEra(b, TakeNumbers(b, id, n))
  {
  }

  lemma PublishEra(b: Broker, id: Id, birth: nat, e: StreamEvent, failing: set<nat>)
    ensures SameEra(b, Publish(b, id, birth, e, failing))
  {
  }

  lemma FindGraves(b: Broker, op: Operation, continuityUnknown: bool)
    requires Graves(b)
    ensures GravesKept(b, FindState(b, op, continuityUnknown))
  {
    var looked := AfterErasedCheck(b, op);
    CheckGraves(b, op);
    OpenEra(looked, op, continuityUnknown);
    SameGraves(looked, FindState(b, op, continuityUnknown));
    KeptGravesTwice(b, looked, FindState(b, op, continuityUnknown));
  }

  lemma ReadyGraves(b: Broker, op: Operation, continuityUnknown: bool)
    requires Graves(b)
    ensures GravesKept(b, Ready(b, op, continuityUnknown)) && GravesKept(b, FindState(b, op, continuityUnknown))
  {
    var f := FindState(b, op, continuityUnknown);
    FindGraves(b, op, continuityUnknown);
    SyncEra(f, op);
    SameGraves(f, SyncAttempt(f, op));
    KeptGravesTwice(b, f, SyncAttempt(f, op));
  }

  lemma {:induction false} PublishAllEra(b: Broker, id: Id, birth: nat, events: seq<StreamEvent>, failing: set<nat>)
    ensures SameEra(b, PublishAll(b, id, birth, events, failing))
    decreases |events|
  {
    if events != [] {
      PublishEra(b, id, birth, events[0], failing);
      PublishAllEra(Publish(b, id, birth, events[0], failing), id, birth, events[1..], failing);
    }
  }

  lemma EmitEra(r: Broker, op: Operation, m: Message, failing: set<nat>)
    ensures SameEra(r, Emit(r, op, m, failing).0)
  {
    TakeEra(r, op.id, Numbers(m));
    if op.id in r.states {
      PublishAllEra(TakeNumbers(r, op.id, Numbers(m)), op.id, r.states[op.id].birth, EventsOf(op, m, r.states[op.id].nextSequence), failing);
    }
  }

  lemma ThenSameEra(b: Broker, r: Broker, c: Broker)
    requires GravesKept(b, r) && SameEra(r, c)
    ensures GravesKept(b, c)
  {
    SameGraves(r, c);
    KeptGravesTwice(b, r, c);
  }

  lemma SendGraves(b: Broker, op: Operation, m: Message, unknown: bool, failing: set<nat>)
    requires Graves(b)
    ensures GravesKept(b, Send(b, op, m, unknown, failing).0)
  {
    SameGraves(b, b);
    ReadyGraves(b, op, unknown);
    EmitEra(Ready(b, op, unknown), op, m, failing);
    ThenSameEra(b, Ready(b, op, unknown), Emit(Ready(b, op, unknown), op, m, failing).0);
  }

  lemma AttachEra(f: Broker, op: Operation, last: int, truncated: bool)
    ensures SameEra(f, Attach(f, op, last, truncated).0)
  {
    SyncEra(f, op);
    if op.id in SyncAttempt(f, op).states {
      JoinEra(SyncAttempt(f, op), op.id);
    }
  }

  lemma JoinEra(b: Broker, id: Id)
    requires id in b.states
    ensures SameEra(b, Join(b, id))
  {
  }

  lemma TargetGraves(b: Broker, op: Operation)
    requires Graves(b) && ValidConfig(b.config)
    ensures GravesKept(b, SubscribeTarget(b, op))
  {
    var e := ExpireHistory(b, op.id);
    ExpireEra(b, op.id);
    SameGraves(b, e);
    EraseGraves(e, OperationGrave(op.id));
    KeptGravesTwice(b, e, Erase(e, OperationGrave(op.id)));
  }

  lemma SubscribeGraves(b: Broker, op: Operation, last: int, truncated: bool)
    requires Graves(b) && ValidConfig(b.config)
    ensures GravesKept(b, Subscribe(b, op, last, truncated).0)
  {
    var looked := AfterErasedCheck(b, op);
    CheckGraves(b, op);
    if !IsErased(b, op) {
      var target := SubscribeTarget(looked, op);
      TargetGraves(looked, op);
      KeptGravesTwice(b, looked, target);
      SubscribeOnGraves(target, op, last, truncated);
      KeptGravesTwice(b, target, SubscribeOn(target, op, last, truncated).0);
    }
  }

  lemma SubscribeOnGraves(target: Broker, op: Operation, last: int, truncated: bool)
    requires Graves(target)
    ensures GravesKept(target, SubscribeOn(target, op, last, truncated).0)
  {
    SameGraves(target, target);
    AttachEra(target, op, last, truncated);
    SameGraves(target, Attach(target, op, last, truncated).0);
    var f := FindState(target, op, false);
    FindGraves(target, op, false);
    AttachEra(f, op, last, truncated);
    SameGraves(f, Attach(f, op, last, truncated).0);
    KeptGravesTwice(target, f, Attach(f, op, last, truncated).0);
  }

  lemma TimerGraves(b: Broker, t: TombstoneTimer)
    requires Graves(b) && t in b.timers && t.due <= b.now && b.config.erasureTtlMs <= MAX_TIMER_DELAY
    ensures GravesKept(b, TombstoneTimerFires(b, t))
  {
  }

  lemma BeginGraves(b: Broker, op: Operation)
    requires Graves(b)
    ensures GravesKept(b, BeginAttempt(b, op))
  {
    ExpireEra(b, op.id);
    SyncEra(ExpireHistory(b, op.id), op);
    SameGraves(b, BeginAttempt(b, op));
  }

  lemma LeaveGraves(b: Broker, id: Id, birth: nat, listener: nat)
    requires Graves(b)
    ensures GravesKept(b, Unsubscribe(b, id, birth, listener))
  {
    SameGraves(b, Unsubscribe(b, id, birth, listener));
  }

  lemma LookGraves(b: Broker, id: Id)
    requires Graves(b)
    ensures GravesKept(b, ExpireHistory(b, id))
  {
    ExpireEra(b, id);
    SameGraves(b, ExpireHistory(b, id));
  }

  lemma HistoryTimerGraves(b: Broker, id: Id)
    requires Graves(b)
    ensures GravesKept(b, HistoryTimerFires(b, id))
  {
    if id in b.states {
      ExpireEra(Put(b, id, b.states[id].(historyTimer := None)), id);
    }
    SameGraves(b, HistoryTimerFires(b, id));
  }

  lemma TickGraves(b: Broker, now: int)
    requires Graves(b) && now >= b.now
    ensures GravesKept(b, b.(now := now)) && GravesKept(b, Close(b))
  {
  }

  lemma StepGraves(b: Broker, s: Step)
    requires Graves(b) && ValidConfig(b.config) && Enabled(b, s) && b.config.erasureTtlMs <= MAX_TIMER_DELAY
    ensures GravesKept(b, Next(b, s))
  {
    match s {
      case Begin(op) => BeginGraves(b, op);
      case Publishing(op, m, unknown, failing) => SendGraves(b, op, m, unknown, failing);
      case Listen(op, last, truncated) => SubscribeGraves(b, op, last, truncated);
      case Leave(id, birth, listener) => LeaveGraves(b, id, birth, listener);
      case Look(id) => LookGraves(b, id);
      case Bury(grave) => EraseGraves(b, grave);
      case HistoryTimer(id) => HistoryTimerGraves(b, id);
      case GraveTimer(t) => TimerGraves(b, t);
      case Tick(now) => TickGraves(b, now);
      case Shut => TickGraves(b, b.now);
    }
  }

  lemma {:induction false} RunGraves(b: Broker, steps: seq<Step>)
    requires Inv(b) && Graves(b) && Possible(b, steps) && b.config.erasureTtlMs <= MAX_TIMER_DELAY
    ensures GravesKept(b, Run(b, steps))
    decreases |steps|
  {
    SameGraves(b, b);
    if steps != [] {
      StepGraves(b, steps[0]);
      StepKeeps(b, steps[0]);
      RunGraves(Next(b, steps[0]), steps[1..]);
      KeptGravesTwice(b, Next(b, steps[0]), Run(b, steps));
    }
  }

  // ---------- the theorems ----------

  predicate CoversOperation(grave: Grave, op: Operation) {
    match grave
    case OperationGrave(id) => id == op.id
    case InterviewGrave(account, interview) => account == op.accountId && interview == op.interviewId
    case AccountGrave(account) => account == op.accountId
  }

  /** Nothing of the erased operations is left, and nothing can be published or subscribed to. */
  ghost predicate Silent(b: Broker, grave: Grave) {
    && (forall id :: id in b.states ==> !Covers(grave, id, b.states[id]))
    && (forall op, m, unknown, failing {:trigger Send(b, op, m, unknown, failing)} ::
          CoversOperation(grave, op) ==> Send(b, op, m, unknown, failing).1.Refused?)
    && (forall op, last, truncated {:trigger Subscribe(b, op, last, truncated)} ::
          CoversOperation(grave, op) ==> Subscribe(b, op, last, truncated).1.None?)
  }

  lemma RefusedWhenBuried(b: Broker, grave: Grave, op: Operation, unknown: bool)
    requires Inv(b) && Buried(b, grave) && CoversOperation(grave, op)
    ensures IsErased(b, op) && !Opens(b, op, unknown)
  {
    FindKeeps(b, op, unknown);
  }

  lemma ClosedSubscribe(b: Broker, op: Operation, last: int, truncated: bool)
    requires Inv(b) && b.closed
    ensures Subscribe(b, op, last, truncated).1.None?
  {
    var looked := AfterErasedCheck(b, op);
    CheckKeeps(b, op);
    TargetKeeps(looked, op);
  }

  lemma BuriedIsSilent(b: Broker, grave: Grave)
    requires Inv(b) && (b.closed || Buried(b, grave))
    ensures Silent(b, grave)
  {
    forall id | id in b.states ensures !Covers(grave, id, b.states[id]) {
      assert Unburied(b, id);
    }
    forall op: Operation, unknown: bool | !b.closed && CoversOperation(grave, op) ensures IsErased(b, op) && !Opens(b, op, unknown) {
      RefusedWhenBuried(b, grave, op, unknown);
    }
    forall op, last, truncated | CoversOperation(grave, op) ensures Subscribe(b, op, last, truncated).1.None? {
      if b.closed {
        ClosedSubscribe(b, op, last, truncated);
      } else {
        RefusedWhenBuried(b, grave, op, false);
      }
    }
  }

  /** Erasure holds from `b`: after erasing, along every run, nothing comes back before the time is over. */
  ghost predicate ErasureHolds(b: Broker, grave: Grave) {
    forall steps {:trigger Run(Erase(b, grave), steps)} ::
      Possible(Erase(b, grave), steps) && Run(Erase(b, grave), steps).now < b.now + b.config.erasureTtlMs
      ==> Run(Erase(b, grave), steps).closed || Buried(Run(Erase(b, grave), steps), grave)
  }

  lemma StillBuried(b: Broker, grave: Grave, d: Broker)
    requires GravesKept(Erase(b, grave), d) && d.now < b.now + b.config.erasureTtlMs
    ensures d.closed || Buried(d, grave)
  {
    if !d.closed {
      assert GraveKept(Erase(b, grave), d, grave);
    }
  }

  lemma ErasureHoldsAlong(b: Broker, grave: Grave, steps: seq<Step>)
    requires Inv(b) && Graves(b) && b.config.erasureTtlMs <= MAX_TIMER_DELAY
    requires Possible(Erase(b, grave), steps) && Run(Erase(b, grave), steps).now < b.now + b.config.erasureTtlMs
    ensures Run(Erase(b, grave), steps).closed || Buried(Run(Erase(b, grave), steps), grave)
    ensures Silent(Run(Erase(b, grave), steps), grave)
  {
    var c := Erase(b, grave);
    MarkedCovers(b, grave);
    EraseGraves(b, grave);
    RunGraves(c, steps);
    RunKeeps(c, steps);
    StillBuried(b, grave, Run(c, steps));
    BuriedIsSilent(Run(c, steps), grave);
  }

  /** The delay of a timer beyond the longest one turns into one millisecond, and the tombstone goes with it. */
  lemma LongErasureIsLost(b: Broker, grave: Grave) returns (steps: seq<Step>)
    requires Inv(b) && !b.closed && b.config.erasureTtlMs > MAX_TIMER_DELAY
    ensures Possible(Erase(b, grave), steps) && Run(Erase(b, grave), steps).now < b.now + b.config.erasureTtlMs
    ensures !Run(Erase(b, grave), steps).closed && !Buried(Run(Erase(b, grave), steps), grave)
  {
    var c := Erase(b, grave);
    var t := TombstoneTimer(grave, b.now + b.config.erasureTtlMs, b.now + 1);
    var later := c.(now := b.now + 1);
    var tick, fire := Tick(b.now + 1), GraveTimer(t);
    FiredTooEarly(later, t);
    assert Reaches(c, [], c);
    OneMore(c, [], c, tick);
    OneMore(c, [] + [tick], later, fire);
    steps := [] + [tick] + [fire];
  }

  lemma FiredTooEarly(later: Broker, t: TombstoneTimer)
    requires t in later.timers && t.due <= later.now && t.grave in later.tombstones && later.tombstones[t.grave] == t.expiresAt
    ensures var d := Next(later, GraveTimer(t));
            Enabled(later, GraveTimer(t)) && d.now == later.now && d.closed == later.closed && !Buried(d, t.grave)
  {
  }

  /** From every reachable open broker, an erasure holds until its tombstone expires, along every run, if
      and only if the erasure time is at most the longest delay of a timer. */
  lemma ErasureHoldsIffDelayFits(config: Config, now: int, before: seq<Step>, grave: Grave)
    requires ValidConfig(config) && Possible(Fresh(config, now), before) && !Run(Fresh(config, now), before).closed
    ensures ErasureHolds(Run(Fresh(config, now), before), grave) <==> config.erasureTtlMs <= MAX_TIMER_DELAY
  {
    var b := Run(Fresh(config, now), before);
    RunKeeps(Fresh(config, now), before);
    if config.erasureTtlMs <= MAX_TIMER_DELAY {
      RunGraves(Fresh(config, now), before);
      forall steps | Possible(Erase(b, grave), steps) && Run(Erase(b, grave), steps).now < b.now + b.config.erasureTtlMs
        ensures Run(Erase(b, grave), steps).closed || Buried(Run(Erase(b, grave), steps), grave)
      {
        ErasureHoldsAlong(b, grave, steps);
      }
    } else {
      var steps := LongErasureIsLost(b, grave);
    }
  }
}
