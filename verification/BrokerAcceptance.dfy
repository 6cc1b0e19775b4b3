/** Exactly which subscriptions are accepted, and why a doubted stream is never resumed. */
module BrokerAcceptance {
  import opened Basics
  import opened InterviewModel
  import opened BrokerModel
  import opened BrokerInvariant
  import opened BrokerRuns
  import opened BrokerGaps
  import opened BrokerFacts

  // ---------- what a call meets ----------

  predicate Holding(b: Broker, grave: Grave) {
    grave in b.tombstones && b.tombstones[grave] > b.now
  }

  /** A tombstone of the operation, its account or its interview still holds. */
  predicate ErasedNow(b: Broker, op: Operation) {
    Holding(b, OperationGrave(op.id)) || Holding(b, AccountGrave(op.accountId)) || Holding(b, InterviewGrave(op.accountId, op.interviewId))
  }

  predicate Lapsed(b: Broker, s: Stream) {
    s.historyExpiresAt.Some? && s.historyExpiresAt.value <= b.now
  }

  /** The operation has a stream, and it has a listener or has not expired. */
  predicate Stands(b: Broker, id: Id) {
    id in b.states && !(Lapsed(b, b.states[id]) && b.states[id].listeners == {})
  }

  /** What of the stream's history this attempt still finds. */
  function RetainedFor(b: Broker, op: Operation): seq<StreamEvent>
    requires Stands(b, op.id)
  {
    if Lapsed(b, b.states[op.id]) || op.attemptCount > b.states[op.id].attemptCount then [] else b.states[op.id].events
  }

  predicate OwnStream(s: Stream, op: Operation) {
    s.accountId == op.accountId && s.interviewId == op.interviewId && op.attemptCount >= s.attemptCount
  }

  // ---------- subscribing ----------

  /** Nothing after `last` is missing from what is retained. */
  predicate NothingMissing(retained: seq<StreamEvent>, last: int, published: int) {
    last <= published && if retained == [] then last == published else last >= retained[0].sequence - 1
  }

  /** A subscription after number `last` is accepted: the operation is not erased, and without a stream it starts at the
      beginning on an open broker; with one it is of that stream's target and no earlier attempt, does not resume a
      doubted stream, has not seen more than was published, and misses nothing unless it may. */
  predicate Accepts(b: Broker, op: Operation, last: int, truncated: bool) {
    !ErasedNow(b, op) &&
    if !Stands(b, op.id) then !b.closed && (last == 0 || (last < 0 && truncated))
    else
      var s := b.states[op.id];
      && OwnStream(s, op) && (last > 0 ==> s.birth !in b.doubted) && last <= s.nextSequence - 1
      && (truncated || NothingMissing(RetainedFor(b, op), last, s.nextSequence - 1))
  }

  lemma AttachAccepts(f: Broker, op: Operation, last: int, truncated: bool)
    requires Inv(f) && op.id in f.states
    ensures var s := f.states[op.id];
            Attach(f, op, last, truncated).1.Some? <==>
              op.attemptCount >= s.attemptCount
              && MayStart(s.(events := if op.attemptCount > s.attemptCount then [] else s.events), last, truncated)
  {
    NoneWhenClosed(f, op.id);
  }

  lemma StandingAccepts(b: Broker, op: Operation, last: int, truncated: bool)
    requires Inv(b) && Facts(b) && Stands(b, op.id) && SameTarget(b.states[op.id], op)
    ensures SubscribeOn(SubscribeTarget(b, op), op, last, truncated).1.Some? <==>
              var s := b.states[op.id];
              && OwnStream(s, op) && (last > 0 ==> s.birth !in b.doubted) && last <= s.nextSequence - 1
              && (truncated || NothingMissing(RetainedFor(b, op), last, s.nextSequence - 1))
  {
    NoneWhenClosed(b, op.id);
    assert Fact(b, op.id);
    var e := ExpireHistory(b, op.id);
    ExpireKeeps(b, op.id);
    AttachAccepts(e, op, last, truncated);
  }

  lemma OtherTargetRefused(b: Broker, op: Operation, last: int, truncated: bool)
    requires Inv(b) && Stands(b, op.id) && !SameTarget(b.states[op.id], op)
    ensures SubscribeOn(SubscribeTarget(b, op), op, last, truncated).1.None?
  {
    NoneWhenClosed(b, op.id);
    var target := SubscribeTarget(b, op);
    TargetKeeps(b, op);
    assert op.id !in target.states && Buried(target, OperationGrave(op.id));
    FindKeeps(target, op, false);
  }

  lemma NoStreamAccepts(b: Broker, op: Operation, last: int, truncated: bool)
    requires Inv(b) && !Stands(b, op.id) && !IsErased(b, op)
    ensures SubscribeOn(SubscribeTarget(b, op), op, last, truncated).1.Some? <==> !b.closed && (last == 0 || (last < 0 && truncated))
  {
    var target := SubscribeTarget(b, op);
    assert target == Drop(b, op.id) by {
      assert op.id !in b.states ==> b.states - {op.id} == b.states;
    }
    DropKeeps(b, op.id);
    if last <= 0 && !b.closed {
      NewStreamFound(target, op);
      FindKeeps(target, op, false);
      AttachAccepts(FindState(target, op, false), op, last, truncated);
    }
  }

  lemma NewStreamFound(b: Broker, op: Operation)
    requires Inv(b) && op.id !in b.states && !IsErased(b, op) && !b.closed
    ensures op.id in FindState(b, op, false).states && FindState(b, op, false).states[op.id] == NewStream(b, op, false)
  {
    var looked := AfterErasedCheck(b, op);
    CheckKeeps(b, op);
    assert Drop(looked, op.id) == looked by {
      assert looked.states - {op.id} == looked.states;
    }
    BirthKeeps(looked, op, false);
    TrimKeeps(Born(looked, op, false));
  }

  /** The exact condition, for the values of a reachable broker. */
  lemma SubscribeAcceptsIff(b: Broker, op: Operation, last: int, truncated: bool)
    requires Inv(b) && Facts(b)
    ensures Subscribe(b, op, last, truncated).1.Some? <==> Accepts(b, op, last, truncated)
  {
    var looked := AfterErasedCheck(b, op);
    CheckKeeps(b, op);
    LookedFacts(b, op);
    if !IsErased(b, op) {
      assert !IsErased(looked, op);
      if !Stands(looked, op.id) {
        NoStreamAccepts(looked, op, last, truncated);
      } else if SameTarget(looked.states[op.id], op) {
        StandingAccepts(looked, op, last, truncated);
      } else {
        OtherTargetRefused(looked, op, last, truncated);
      }
    }
  }

  /** The same in terms of the log: a stream that has published n events and retains the last r of them for this
      attempt accepts a subscription after `last` exactly for n - r <= last <= n (for any up to n with a truncated
      start), when target, attempt and doubts allow it. */
  predicate AcceptsByLog(b: Broker, op: Operation, last: int, truncated: bool) {
    !ErasedNow(b, op) &&
    if !Stands(b, op.id) then !b.closed && (last == 0 || (last < 0 && truncated))
    else
      var s := b.states[op.id];
      && OwnStream(s, op) && (last > 0 ==> s.birth !in b.doubted)
      && last <= LogSize(b, s.birth) && (truncated || LogSize(b, s.birth) - |RetainedFor(b, op)| <= last)
  }

  lemma FirstRetained(b: Broker, op: Operation)
    requires Inv(b) && GapFree(b) && Stands(b, op.id)
    ensures var s := b.states[op.id];
            && s.nextSequence - 1 == LogSize(b, s.birth)
            && (RetainedFor(b, op) != [] ==> RetainedFor(b, op)[0].sequence == LogSize(b, s.birth) - |RetainedFor(b, op)| + 1)
  {
    assert StreamOk(b, op.id) && Ahead(b, op.id, 0);
    if RetainedFor(b, op) != [] {
      StreamIsContiguous(b, op.id, 0);
    }
  }

  lemma SameTerms(b: Broker, op: Operation, last: int, truncated: bool)
    requires Inv(b) && GapFree(b)
    ensures Accepts(b, op, last, truncated) <==> AcceptsByLog(b, op, last, truncated)
  {
    if Stands(b, op.id) {
      FirstRetained(b, op);
    }
  }

  /** In every reachable broker without mapping failures. */
  lemma AcceptanceByLog(config: Config, now: int, steps: seq<Step>, op: Operation, last: int, truncated: bool)
    requires ValidConfig(config) && NeverFails(config) && Possible(Fresh(config, now), steps)
    ensures var b := Run(Fresh(config, now), steps);
            Subscribe(b, op, last, truncated).1.Some? <==> AcceptsByLog(b, op, last, truncated)
  {
    var b := Run(Fresh(config, now), steps);
    RunKeeps(Fresh(config, now), steps);
    RunFacts(Fresh(config, now), steps);
    RunGapFree(Fresh(config, now), steps);
    SubscribeAcceptsIff(b, op, last, truncated);
    SameTerms(b, op, last, truncated);
  }

  // ---------- doubts stay ----------

  predicate MoreDoubted(b: Broker, c: Broker) {
    b.doubted <= c.doubted
  }

  lemma {:induction false} PublishAllDoubts(b: Broker, id: Id, birth: nat, events: seq<StreamEvent>, failing: set<nat>)
    ensures PublishAll(b, id, birth, events, failing).doubted == b.doubted
    decreases |events|
  {
    if events != [] {
      PublishAllDoubts(Publish(b, id, birth, events[0], failing), id, birth, events[1..], failing);
    }
  }

  lemma SyncDoubts(b: Broker, op: Operation)
    ensures SyncAttempt(b, op).doubted == b.doubted
  {
  }

  lemma OpenDoubts(b: Broker, op: Operation, unknown: bool)
    ensures MoreDoubted(b, OpenState(b, op, unknown))
  {
    var e := ExpireHistory(b, op.id);
    assert e.doubted == b.doubted;
  }

  lemma FindDoubts(b: Broker, op: Operation, unknown: bool)
    ensures MoreDoubted(b, FindState(b, op, unknown)) && Ready(b, op, unknown).doubted == FindState(b, op, unknown).doubted
  {
    OpenDoubts(AfterErasedCheck(b, op), op, unknown);
    SyncDoubts(FindState(b, op, unknown), op);
  }

  lemma EmitDoubts(r: Broker, op: Operation, m: Message, failing: set<nat>)
    ensures Emit(r, op, m, failing).0.doubted == r.doubted
  {
    if op.id in r.states {
      PublishAllDoubts(TakeNumbers(r, op.id, Numbers(m)), op.id, r.states[op.id].birth, EventsOf(op, m, r.states[op.id].nextSequence), failing);
    }
  }

  lemma SendDoubts(b: Broker, op: Operation, m: Message, unknown: bool, failing: set<nat>)
    ensures MoreDoubted(b, Send(b, op, m, unknown, failing).0)
    ensures !b.closed && (m.SayText? || Finished(op)) ==> Send(b, op, m, unknown, failing).0.doubted == FindState(b, op, unknown).doubted
  {
    FindDoubts(b, op, unknown);
    EmitDoubts(Ready(b, op, unknown), op, m, failing);
  }

  lemma AttachDoubts(f: Broker, op: Operation, last: int, truncated: bool)
    ensures Attach(f, op, last, truncated).0.doubted == f.doubted
  {
  }

  lemma ListenOnDoubts(target: Broker, op: Operation, last: int, truncated: bool)
    ensures MoreDoubted(target, SubscribeOn(target, op, last, truncated).0)
  {
    AttachDoubts(target, op, last, truncated);
    FindDoubts(target, op, false);
    AttachDoubts(FindState(target, op, false), op, last, truncated);
  }

  lemma ListenDoubts(b: Broker, op: Operation, last: int, truncated: bool)
    ensures MoreDoubted(b, Subscribe(b, op, last, truncated).0)
  {
    var looked := AfterErasedCheck(b, op);
    var target := SubscribeTarget(looked, op);
    assert looked.doubted == b.doubted && target.doubted == looked.doubted;
    ListenOnDoubts(target, op, last, truncated);
  }

  lemma StepDoubts(b: Broker, s: Step)
    ensures MoreDoubted(b, Next(b, s))
  {
    match s {
      case Publishing(op, m, unknown, failing) => SendDoubts(b, op, m, unknown, failing);
      case Listen(op, last, truncated) => ListenDoubts(b, op, last, truncated);
      case _ =>
    }
  }

  lemma {:induction false} RunDoubts(b: Broker, steps: seq<Step>)
    ensures MoreDoubted(b, Run(b, steps))
    decreases |steps|
  {
    if steps != [] {
      StepDoubts(b, steps[0]);
      RunDoubts(Next(b, steps[0]), steps[1..]);
    }
  }

  // ---------- what is doubted is never resumed ----------

  /** A stream found or created by a publication with unknown continuity is doubted, and so is one created at a later
      attempt than the first. */
  lemma DoubtIsNoted(b: Broker, op: Operation, unknown: bool)
    requires Inv(b) && op.id in FindState(b, op, unknown).states
    ensures var birth := FindState(b, op, unknown).states[op.id].birth;
            unknown || (birth == b.nextBirth && op.attemptCount > 1) ==> birth in FindState(b, op, unknown).doubted
  {
    FindKeeps(b, op, unknown);
    CheckKeeps(b, op);
    if op.id in b.states {
      assert StreamOk(b, op.id);
    }
    CreatedDoubt(Drop(ExpireHistory(AfterErasedCheck(b, op), op.id), op.id), op, unknown);
  }

  lemma CreatedDoubt(b: Broker, op: Operation, unknown: bool)
    ensures op.id in CreateState(b, op, unknown).states && op.id !in b.states ==>
              CreateState(b, op, unknown).states[op.id].birth == b.nextBirth
              && (unknown || op.attemptCount > 1 ==> b.nextBirth in CreateState(b, op, unknown).doubted)
  {
    TrimRemoves(Born(b, op, unknown).states, b.config.historyOperationLimit);
  }

  lemma DoubtedIsRefused(b: Broker, op: Operation, last: int, truncated: bool)
    requires Inv(b) && Facts(b) && last > 0 && Subscribe(b, op, last, truncated).1.Some?
    ensures Subscribe(b, op, last, truncated).1.value.birth !in b.doubted
  {
    SubscribeAcceptsIff(b, op, last, truncated);
    JoinsStanding(b, op, last, truncated);
  }

  /** A resumed subscription joins the stream that was there. */
  lemma JoinsStanding(b: Broker, op: Operation, last: int, truncated: bool)
    requires Inv(b) && Facts(b) && last > 0 && Subscribe(b, op, last, truncated).1.Some?
    ensures op.id in b.states && Subscribe(b, op, last, truncated).1.value.birth == b.states[op.id].birth
  {
    SubscribeAcceptsIff(b, op, last, truncated);
    CheckKeeps(b, op);
    var target := SubscribeTarget(AfterErasedCheck(b, op), op);
    assert op.id in target.states && target.states[op.id].birth == b.states[op.id].birth;
  }

  /** After a publication that passed unknown continuity, along every run and whatever is asked, no subscription resumes
      on the stream it found: a subscription after a positive number is refused or joins another stream. The same holds
      of a stream that it created at a later attempt than the first. */
  lemma DoubtfulIsNeverResumed(config: Config, now: int, before: seq<Step>, op: Operation, m: Message, unknown: bool, failing: set<nat>,
                               after: seq<Step>, other: Operation, last: int, truncated: bool)
    requires ValidConfig(config) && Possible(Fresh(config, now), before)
    requires var b := Run(Fresh(config, now), before);
             && Possible(Next(b, Publishing(op, m, unknown, failing)), after)
             && !b.closed && (m.SayText? || Finished(op)) && op.id in FindState(b, op, unknown).states
             && (unknown || (FindState(b, op, unknown).states[op.id].birth == b.nextBirth && op.attemptCount > 1))
    requires last > 0
    ensures var b := Run(Fresh(config, now), before);
            var d := Run(Next(b, Publishing(op, m, unknown, failing)), after);
            var found := Subscribe(d, other, last, truncated).1;
            found.None? || found.value.birth != FindState(b, op, unknown).states[op.id].birth
  {
    var b := Run(Fresh(config, now), before);
    var c := Next(b, Publishing(op, m, unknown, failing));
    RunKeeps(Fresh(config, now), before);
    RunFacts(Fresh(config, now), before);
    DoubtIsNoted(b, op, unknown);
    SendDoubts(b, op, m, unknown, failing);
    StepKeeps(b, Publishing(op, m, unknown, failing));
    StepFacts(b, Publishing(op, m, unknown, failing));
    RunKeeps(c, after);
    RunFacts(c, after);
    RunDoubts(c, after);
    if Subscribe(Run(c, after), other, last, truncated).1.Some? {
      DoubtedIsRefused(Run(c, after), other, last, truncated);
    }
  }

  /** The same of a stream that a subscription created at a later attempt than the first. */
  lemma LateStreamIsNeverResumed(config: Config, now: int, before: seq<Step>, op: Operation, first: int, may: bool,
                                 after: seq<Step>, other: Operation, last: int, truncated: bool)
    requires ValidConfig(config) && Possible(Fresh(config, now), before)
    requires var b := Run(Fresh(config, now), before);
             && Possible(Next(b, Listen(op, first, may)), after) && op.attemptCount > 1
             && Subscribe(b, op, first, may).1.Some? && Subscribe(b, op, first, may).1.value.birth == b.nextBirth
    requires last > 0
    ensures var b := Run(Fresh(config, now), before);
            var d := Run(Next(b, Listen(op, first, may)), after);
            var found := Subscribe(d, other, last, truncated).1;
            found.None? || found.value.birth != b.nextBirth
  {
    var b := Run(Fresh(config, now), before);
    var c := Next(b, Listen(op, first, may));
    RunKeeps(Fresh(config, now), before);
    RunFacts(Fresh(config, now), before);
    ListenedLate(b, op, first, may);
    StepKeeps(b, Listen(op, first, may));
    StepFacts(b, Listen(op, first, may));
    RunKeeps(c, after);
    RunFacts(c, after);
    RunDoubts(c, after);
    if Subscribe(Run(c, after), other, last, truncated).1.Some? {
      DoubtedIsRefused(Run(c, after), other, last, truncated);
    }
  }

  lemma KnownBirth(b: Broker, id: Id)
    requires Inv(b)
    ensures id in b.states ==> b.states[id].birth < b.nextBirth
  {
    if id in b.states {
      assert StreamOk(b, id);
    }
  }

  lemma AttachedBirth(f: Broker, op: Operation, first: int, may: bool)
    requires Inv(f) && Attach(f, op, first, may).1.Some?
    ensures op.id in f.states && Attach(f, op, first, may).1.value.birth == f.states[op.id].birth
  {
    NoneWhenClosed(f, op.id);
  }

  lemma ListenedOnLate(target: Broker, op: Operation, first: int, may: bool)
    requires Inv(target) && op.attemptCount > 1
    requires SubscribeOn(target, op, first, may).1.Some? && SubscribeOn(target, op, first, may).1.value.birth == target.nextBirth
    ensures target.nextBirth in SubscribeOn(target, op, first, may).0.doubted
  {
    KnownBirth(target, op.id);
    if op.id in target.states {
      AttachedBirth(target, op, first, may);
    } else {
      var f := FindState(target, op, false);
      FindKeeps(target, op, false);
      AttachedBirth(f, op, first, may);
      DoubtIsNoted(target, op, false);
      AttachDoubts(f, op, first, may);
    }
  }

  lemma ListenedLate(b: Broker, op: Operation, first: int, may: bool)
    requires Inv(b) && op.attemptCount > 1
    requires Subscribe(b, op, first, may).1.Some? && Subscribe(b, op, first, may).1.value.birth == b.nextBirth
    ensures b.nextBirth in Subscribe(b, op, first, may).0.doubted
  {
    var looked := AfterErasedCheck(b, op);
    CheckKeeps(b, op);
    var target := SubscribeTarget(looked, op);
    TargetKeeps(looked, op);
    assert target.nextBirth == b.nextBirth;
    ListenedOnLate(target, op, first, may);
  }
}
