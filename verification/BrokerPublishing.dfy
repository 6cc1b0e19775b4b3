/** Exactly what every publishing call answers, and how it leaves the streams. */
module BrokerPublishing {
  import opened Basics
  import opened InterviewModel
  import opened BrokerModel
  import opened BrokerInvariant
  import opened BrokerAcceptance

  // ---------- what a publication meets ----------

  /** The operation has a stream of its own target that stands. */
  predicate Owns(b: Broker, op: Operation) {
    Stands(b, op.id) && b.states[op.id].accountId == op.accountId && b.states[op.id].interviewId == op.interviewId
  }

  function NextNumber(b: Broker, op: Operation): int {
    if Owns(b, op) then b.states[op.id].nextSequence else 1
  }

  function Heard(b: Broker, op: Operation): set<nat> {
    if Owns(b, op) then b.states[op.id].listeners else {}
  }

  function EventsFor(b: Broker, op: Operation): seq<StreamEvent> {
    if Owns(b, op) then RetainedFor(b, op) else []
  }

  /** The broker is open, the operation is not erased, and the attempt is not an earlier one. */
  predicate TakesPart(b: Broker, op: Operation) {
    !b.closed && !ErasedNow(b, op) && (Owns(b, op) ==> op.attemptCount >= b.states[op.id].attemptCount)
  }

  /** What the call answers: nothing to an operation that takes no part, or is to be finished and is not; the retained
      terminal event when the end is asked for again, and nothing else after it; nothing without numbers; a failure
      when a mapping fails; and else the events with the next numbers. */
  function Expected(b: Broker, op: Operation, m: Message): Published {
    var n, succeeded := NextNumber(b, op), op.status == StatusSucceeded;
    if !TakesPart(b, op) || (!m.SayText? && op.status != StatusSucceeded && op.status != StatusFailed) then Refused
    else if TerminalOf(EventsFor(b, op)).Some? then if m.SayEnd? then One(TerminalOf(EventsFor(b, op)).value) else Refused
    else if n < 1 || n > MAX_SAFE_INTEGER || (m.SayBoth? && n + 1 > MAX_SAFE_INTEGER) then Refused
    else match m
    case SayText(text, at) => if b.config.textMaps(op, text, at) then One(TextDelta(n, text, at)) else MappingFailed
    case SayEnd => if b.config.terminalMaps(op) then One(Terminal(n, succeeded)) else MappingFailed
    case SayBoth(text, at) =>
      if b.config.textMaps(op, text, at) && b.config.terminalMaps(op) then Two(TextDelta(n, text, at), Terminal(n + 1, succeeded)) else MappingFailed
  }

  // ---------- the ready stream ----------

  predicate OthersStay(b: Broker, c: Broker, id: Id) {
    forall other :: other in c.states && other != id ==> other in b.states && c.states[other] == b.states[other]
  }

  /** The operation's stream, as a call finds it. */
  ghost predicate IsReady(b: Broker, r: Broker, op: Operation) {
    && op.id in r.states && r.config == b.config && r.now == b.now && OthersStay(b, r, op.id)
    && var s := r.states[op.id];
       && s.accountId == op.accountId && s.interviewId == op.interviewId && s.attemptCount == op.attemptCount && s.touchedAt == b.now
       && s.events == EventsFor(b, op) && s.nextSequence == NextNumber(b, op) && s.listeners == Heard(b, op)
  }

  /** A stream with the target, listeners and numbers of another. */
  predicate SameBut(s: Stream, t: Stream) {
    && t.accountId == s.accountId && t.interviewId == s.interviewId && t.nextSequence == s.nextSequence && t.listeners == s.listeners
  }

  lemma ExpiredOwn(b: Broker, op: Operation)
    requires Inv(b) && Owns(b, op)
    ensures var e := ExpireHistory(b, op.id);
            && op.id in e.states && e.config == b.config && e.now == b.now && e.closed == b.closed && OthersStay(b, e, op.id)
            && SameBut(b.states[op.id], e.states[op.id]) && e.states[op.id].attemptCount == b.states[op.id].attemptCount
            && e.states[op.id].events == (if Lapsed(b, b.states[op.id]) then [] else b.states[op.id].events)
  {
    NoneWhenClosed(b, op.id);
  }

  lemma OpenedOwn(b: Broker, op: Operation, unknown: bool)
    requires Inv(b) && Owns(b, op)
    ensures var f := OpenState(b, op, unknown);
            && op.id in f.states && f.config == b.config && f.now == b.now && !f.closed && OthersStay(b, f, op.id)
            && SameBut(b.states[op.id], f.states[op.id]) && f.states[op.id].attemptCount == b.states[op.id].attemptCount
            && f.states[op.id].touchedAt == b.now
            && f.states[op.id].events == (if Lapsed(b, b.states[op.id]) then [] else b.states[op.id].events)
  {
    NoneWhenClosed(b, op.id);
    ExpiredOwn(b, op);
    var e := ExpireHistory(b, op.id);
    assert OpenState(b, op, unknown) == Found(e, op, unknown);
  }

  lemma SyncedStream(f: Broker, op: Operation)
    requires op.id in f.states && !f.closed && op.attemptCount >= f.states[op.id].attemptCount
    ensures var s, r := f.states[op.id], SyncAttempt(f, op);
            && op.id in r.states && r.config == f.config && r.now == f.now && OthersStay(f, r, op.id)
            && SameBut(s, r.states[op.id]) && r.states[op.id].attemptCount == op.attemptCount && r.states[op.id].touchedAt == s.touchedAt
            && r.states[op.id].events == (if op.attemptCount > s.attemptCount then [] else s.events)
  {
  }

  lemma OwnIsReady(b: Broker, op: Operation, unknown: bool)
    requires Inv(b) && Owns(b, op) && op.attemptCount >= b.states[op.id].attemptCount
    ensures IsReady(b, SyncAttempt(OpenState(b, op, unknown), op), op)
  {
    OpenedOwn(b, op, unknown);
    SyncedStream(OpenState(b, op, unknown), op);
  }

  lemma OpenedNew(b: Broker, op: Operation, unknown: bool)
    requires Inv(b) && !Owns(b, op) && !b.closed && !IsErased(b, op)
    ensures var f := OpenState(b, op, unknown);
            && op.id in f.states && f.config == b.config && f.now == b.now && !f.closed && OthersStay(b, f, op.id)
            && f.states[op.id] == NewStream(b, op, unknown)
  {
    var e := ExpireHistory(b, op.id);
    ExpireLeaves(b, op.id);
    CreatedNew(Drop(e, op.id), op, unknown);
    assert OpenState(b, op, unknown) == CreateState(Drop(e, op.id), op, unknown);
  }

  lemma ExpireLeaves(b: Broker, id: Id)
    ensures var e := ExpireHistory(b, id);
            e.config == b.config && e.now == b.now && e.closed == b.closed && e.nextBirth == b.nextBirth && OthersStay(b, e, id)
  {
  }

  lemma CreatedNew(d: Broker, op: Operation, unknown: bool)
    requires !d.closed
    ensures var f := CreateState(d, op, unknown);
            && op.id in f.states && f.config == d.config && f.now == d.now && !f.closed && OthersStay(d, f, op.id)
            && f.states[op.id] == NewStream(d, op, unknown)
  {
    TrimRemoves(Born(d, op, unknown).states, d.config.historyOperationLimit);
  }

  lemma NewIsReady(b: Broker, op: Operation, unknown: bool)
    requires Inv(b) && !Owns(b, op) && !b.closed && !IsErased(b, op)
    ensures IsReady(b, SyncAttempt(OpenState(b, op, unknown), op), op)
  {
    OpenedNew(b, op, unknown);
    SyncedStream(OpenState(b, op, unknown), op);
  }

  lemma ReadyIsReady(b: Broker, op: Operation, unknown: bool)
    requires Inv(b) && TakesPart(b, op)
    ensures Opens(b, op, unknown) && IsReady(b, Ready(b, op, unknown), op)
  {
    var looked := AfterErasedCheck(b, op);
    CheckKeeps(b, op);
    assert !IsErased(b, op) && !IsErased(looked, op);
    if Owns(looked, op) {
      OwnIsReady(looked, op, unknown);
    } else {
      NewIsReady(looked, op, unknown);
    }
    FindKeeps(b, op, unknown);
    OpensWhenFitting(looked, op, unknown);
  }

  lemma OpensWhenFitting(b: Broker, op: Operation, unknown: bool)
    requires Inv(b) && !b.closed && !IsErased(b, op) && (Owns(b, op) ==> op.attemptCount >= b.states[op.id].attemptCount)
    ensures Current(OpenState(b, op, unknown), op)
  {
    OpenKeeps(b, op, unknown);
    var e := ExpireHistory(b, op.id);
    TrimRemoves(Born(Drop(e, op.id), op, unknown).states, b.config.historyOperationLimit);
  }

  lemma NotTakingPart(b: Broker, op: Operation, unknown: bool)
    requires Inv(b) && !b.closed && !TakesPart(b, op)
    ensures !Opens(b, op, unknown)
  {
    FindKeeps(b, op, unknown);
    CheckKeeps(b, op);
    if !ErasedNow(b, op) {
      EarlierIsNotCurrent(AfterErasedCheck(b, op), op, unknown);
    }
  }

  lemma EarlierIsNotCurrent(b: Broker, op: Operation, unknown: bool)
    requires Owns(b, op) && op.attemptCount < b.states[op.id].attemptCount
    ensures !Current(OpenState(b, op, unknown), op)
  {
  }

  /** The answer of every call, on every broker that satisfies the invariant. */
  lemma SendAnswersAsExpected(b: Broker, op: Operation, m: Message, unknown: bool, failing: set<nat>)
    requires Inv(b)
    ensures Send(b, op, m, unknown, failing).1 == Expected(b, op, m)
  {
    if !b.closed && (m.SayText? || Finished(op)) {
      if TakesPart(b, op) {
        ReadyIsReady(b, op, unknown);
        ReadyAnswers(b, Ready(b, op, unknown), op, m, failing);
      } else {
        NotTakingPart(b, op, unknown);
      }
    }
  }

  lemma ReadyAnswers(b: Broker, r: Broker, op: Operation, m: Message, failing: set<nat>)
    requires IsReady(b, r, op) && TakesPart(b, op) && (m.SayText? || Finished(op))
    ensures Emit(r, op, m, failing).1 == Expected(b, op, m)
  {
  }

  // ---------- how the streams are left ----------

  /** The stream after a publication: its listeners without the throwing ones, touched now, and its history to expire
      after the time to live. */
  predicate LeftBy(b: Broker, c: Broker, s: Stream, t: Stream, failing: set<nat>) {
    && t.birth == s.birth && t.accountId == s.accountId && t.interviewId == s.interviewId && t.attemptCount == s.attemptCount
    && t.continuityUnknown == s.continuityUnknown && t.nextSequence == s.nextSequence
    && t.listeners == s.listeners - failing && t.touchedAt == b.now && t.historyExpiresAt == Some(b.now + b.config.replayTtlMs)
  }

  /** What publishing on the operation's stream makes of the streams. */
  ghost predicate Leaves(b: Broker, c: Broker, id: Id, failing: set<nat>) {
    && c.config == b.config && c.now == b.now && OthersStay(b, c, id)
    && (id in c.states ==> id in b.states && LeftBy(b, c, b.states[id], c.states[id], failing))
  }

  lemma PublishLeavesIt(b: Broker, id: Id, birth: nat, e: StreamEvent, failing: set<nat>)
    requires id in b.states ==> b.states[id].birth == birth
    ensures Leaves(b, Publish(b, id, birth, e, failing), id, failing)
  {
    if id in b.states {
      TrimRemoves(Extended(b, id, e, failing).states, b.config.historyOperationLimit);
    } else {
      TrimRemoves(b.states, b.config.historyOperationLimit);
    }
  }

  lemma LeavesTwice(b: Broker, c: Broker, d: Broker, id: Id, failing: set<nat>)
    requires Leaves(b, c, id, failing) && Leaves(c, d, id, failing)
    ensures Leaves(b, d, id, failing)
  {
  }

  lemma {:induction false} PublishAllLeavesIt(b: Broker, id: Id, birth: nat, events: seq<StreamEvent>, failing: set<nat>)
    requires events != [] && (id in b.states ==> b.states[id].birth == birth)
    ensures Leaves(b, PublishAll(b, id, birth, events, failing), id, failing)
    decreases |events|
  {
    var c := Publish(b, id, birth, events[0], failing);
    PublishLeavesIt(b, id, birth, events[0], failing);
    if events[1..] != [] {
      PublishAllLeavesIt(c, id, birth, events[1..], failing);
      LeavesTwice(b, c, PublishAll(c, id, birth, events[1..], failing), id, failing);
    }
  }

  /** After a publication that was not refused, failed or answered from the history: the operation's stream, unless it
      was trimmed, is of its target and attempt, has the next number after those given out, lost exactly the throwing
      listeners, and its history expires after the time to live; every other stream is as it was, or trimmed. */
  lemma PublishingLeaves(b: Broker, op: Operation, m: Message, unknown: bool, failing: set<nat>)
    requires Inv(b) && TerminalOf(EventsFor(b, op)).None? && (Expected(b, op, m).One? || Expected(b, op, m).Two?)
    ensures var c := Send(b, op, m, unknown, failing).0;
            && OthersStay(b, c, op.id)
            && (op.id in c.states ==>
                  var s := c.states[op.id];
                  && s.accountId == op.accountId && s.interviewId == op.interviewId && s.attemptCount == op.attemptCount
                  && s.nextSequence == NextNumber(b, op) + (if m.SayBoth? then 2 else 1)
                  && s.listeners == Heard(b, op) - failing && s.touchedAt == b.now
                  && s.historyExpiresAt == Some(b.now + b.config.replayTtlMs))
  {
    ReadyIsReady(b, op, unknown);
    EmittedLeaves(b, Ready(b, op, unknown), op, m, failing);
  }

  lemma TakenStream(r: Broker, id: Id, n: nat)
    requires HasNumbers(r, id, n)
    ensures var t := TakeNumbers(r, id, n);
            && id in t.states && t.config == r.config && t.now == r.now && OthersStay(r, t, id)
            && t.states[id] == r.states[id].(nextSequence := r.states[id].nextSequence + n)
  {
  }

  lemma EmittedLeaves(b: Broker, r: Broker, op: Operation, m: Message, failing: set<nat>)
    requires IsReady(b, r, op) && TakesPart(b, op) && TerminalOf(EventsFor(b, op)).None? && (Expected(b, op, m).One? || Expected(b, op, m).Two?)
    ensures var c := Emit(r, op, m, failing).0;
            && OthersStay(b, c, op.id)
            && (op.id in c.states ==>
                  var s := c.states[op.id];
                  && s.accountId == op.accountId && s.interviewId == op.interviewId && s.attemptCount == op.attemptCount
                  && s.nextSequence == NextNumber(b, op) + (if m.SayBoth? then 2 else 1)
                  && s.listeners == Heard(b, op) - failing && s.touchedAt == b.now
                  && s.historyExpiresAt == Some(b.now + b.config.replayTtlMs))
  {
    var taken, events := TakeNumbers(r, op.id, Numbers(m)), EventsOf(op, m, r.states[op.id].nextSequence);
    EmitPublishes(b, r, op, m, failing);
    TakenStream(r, op.id, Numbers(m));
    PublishAllLeavesIt(taken, op.id, r.states[op.id].birth, events, failing);
  }

  lemma EmitPublishes(b: Broker, r: Broker, op: Operation, m: Message, failing: set<nat>)
    requires IsReady(b, r, op) && TakesPart(b, op) && TerminalOf(EventsFor(b, op)).None? && (Expected(b, op, m).One? || Expected(b, op, m).Two?)
    ensures HasNumbers(r, op.id, Numbers(m))
    ensures Emit(r, op, m, failing).0
            == PublishAll(TakeNumbers(r, op.id, Numbers(m)), op.id, r.states[op.id].birth, EventsOf(op, m, r.states[op.id].nextSequence), failing)
  {
  }
}
