/** Exactly what an accepted subscription gets, and how subscribing, leaving, beginning an attempt and erasing leave
    the streams. */
module BrokerSubscribing {
  import opened Basics
  import opened Sequences
  import opened InterviewModel
  import opened BrokerModel
  import opened BrokerInvariant
  import opened BrokerAcceptance
  import opened BrokerPublishing

  // ---------- the replay ----------

  /** The later events of the list: those with a number above `last`, in order. */
  predicate LaterPart(part: seq<StreamEvent>, events: seq<StreamEvent>, last: int) {
    exists k :: 0 <= k <= |events| && PartFrom(part, events, last, k)
  }

  predicate PartFrom(part: seq<StreamEvent>, events: seq<StreamEvent>, last: int, k: nat) {
    && k <= |events| && part == events[k..]
    && (forall j :: 0 <= j < k ==> events[j].sequence <= last)
    && (forall j :: k <= j < |events| ==> events[j].sequence > last)
  }

  lemma {:induction false} BelowNext(events: seq<StreamEvent>, next: int)
    requires Increasing(events, next)
    ensures forall j :: 0 <= j < |events| ==> events[j].sequence < next
  {
    if events != [] {
      var n := |events| - 1;
      BelowNext(events[..n], events[n].sequence);
      assert forall j :: 0 <= j < n ==> events[j] == events[..n][j];
    }
  }

  lemma LaterSnoc(part: seq<StreamEvent>, front: seq<StreamEvent>, e: StreamEvent, last: int)
    requires LaterPart(part, front, last) && e.sequence > last
    ensures LaterPart(part + [e], front + [e], last)
  {
    var k :| 0 <= k <= |front| && PartFrom(part, front, last, k);
    assert PartFrom(part + [e], front + [e], last, k);
  }

  lemma NothingLater(events: seq<StreamEvent>, last: int)
    requires forall j :: 0 <= j < |events| ==> events[j].sequence <= last
    ensures LaterPart([], events, last)
  {
    assert PartFrom([], events, last, |events|);
  }

  lemma {:induction false} FilterIsLaterPart(events: seq<StreamEvent>, next: int, last: int)
    requires Increasing(events, next)
    ensures LaterPart(Filter(After(last), events), events, last)
  {
    if events == [] {
      NothingLater(events, last);
    } else {
      var n := |events| - 1;
      var front, e := events[..n], events[n];
      assert events == front + [e];
      FilterIsLaterPart(front, e.sequence, last);
      FilterAppend(After(last), front, [e]);
      if e.sequence > last {
        assert Filter(After(last), [e]) == [e];
        LaterSnoc(Filter(After(last), front), front, e, last);
      } else {
        BelowNext(front, e.sequence);
        FilterKeepsNone(After(last), events);
        NothingLater(events, last);
      }
    }
  }

  lemma {:induction false} FilterKeepsNone(p: StreamEvent -> bool, events: seq<StreamEvent>)
    requires forall j :: 0 <= j < |events| ==> !p(events[j])
    ensures Filter(p, events) == []
  {
    if events != [] {
      FilterKeepsNone(p, events[1..]);
    }
  }

  lemma {:induction false} SuffixIncreases(log: seq<StreamEvent>, cut: nat, next: int)
    requires Increasing(log, next) && cut <= |log|
    ensures next >= 1 && Increasing(log[cut..], next)
  {
    if log != [] {
      var n := |log| - 1;
      SuffixIncreases(log[..n], if cut <= n then cut else n, log[n].sequence);
      if cut <= n {
        assert log[cut..] == log[..n][cut..] + [log[n]];
        IncreasingSnoc(log[..n][cut..], log[n], next);
      }
    }
  }

  lemma WindowIncreases(b: Broker, id: Id)
    requires Inv(b) && id in b.states
    ensures Increasing(b.states[id].events, b.states[id].nextSequence)
  {
    assert StreamOk(b, id);
    var log := b.logs[b.states[id].birth].events;
    SuffixIncreases(log, |log| - |b.states[id].events|, b.states[id].nextSequence);
  }

  // ---------- the stream that is joined ----------

  /** The stream of the operation before it is joined: its own if it has one that stands, and else a new one. */
  ghost predicate IsMet(b: Broker, r: Broker, op: Operation) {
    && op.id in r.states && r.now == b.now && r.nextListener == b.nextListener && OthersStay(b, r, op.id)
    && var s := r.states[op.id];
       && s.accountId == op.accountId && s.interviewId == op.interviewId && s.attemptCount == op.attemptCount
       && s.events == EventsFor(b, op) && s.nextSequence == NextNumber(b, op) && s.listeners == Heard(b, op)
       && s.birth == if Owns(b, op) then b.states[op.id].birth else b.nextBirth
  }

  lemma ExpireKeepsNames(b: Broker, id: Id)
    ensures var e := ExpireHistory(b, id);
            && e.nextListener == b.nextListener && e.nextBirth == b.nextBirth
            && (id in e.states ==> id in b.states && e.states[id].birth == b.states[id].birth)
  {
  }

  lemma SyncKeepsNames(f: Broker, op: Operation)
    requires op.id in f.states && !f.closed
    ensures var r := SyncAttempt(f, op);
            r.nextListener == f.nextListener && op.id in r.states && r.states[op.id].birth == f.states[op.id].birth
  {
  }

  lemma OwnIsMet(b: Broker, op: Operation)
    requires Inv(b) && Owns(b, op) && op.attemptCount >= b.states[op.id].attemptCount
    ensures op.id in ExpireHistory(b, op.id).states && IsMet(b, SyncAttempt(ExpireHistory(b, op.id), op), op)
  {
    var e := ExpireHistory(b, op.id);
    NoneWhenClosed(b, op.id);
    ExpiredOwn(b, op);
    ExpireKeepsNames(b, op.id);
    SyncedStream(e, op);
    SyncKeepsNames(e, op);
  }

  lemma OpenKeepsNames(b: Broker, op: Operation)
    ensures OpenState(b, op, false).nextListener == b.nextListener
  {
  }

  lemma NewIsMet(b: Broker, op: Operation)
    requires Inv(b) && !Stands(b, op.id) && !b.closed && !IsErased(b, op)
    ensures IsMet(b, SyncAttempt(FindState(Drop(b, op.id), op, false), op), op)
  {
    var d := Drop(b, op.id);
    DropKeeps(b, op.id);
    CheckKeeps(d, op);
    var looked := AfterErasedCheck(d, op);
    OpenedNew(looked, op, false);
    OpenKeepsNames(looked, op);
    SyncedStream(FindState(d, op, false), op);
    SyncKeepsNames(FindState(d, op, false), op);
  }

  // ---------- the subscription ----------

  /** The retained events after the number, and the number of the terminal event if it is retained. */
  predicate Replays(events: seq<StreamEvent>, last: int, sub: Subscription) {
    LaterPart(sub.replay, events, last) && sub.terminalSequence == EndOf(events)
  }

  /** A new listener on the operation's stream, which is only touched besides. */
  ghost predicate Enters(b: Broker, c: Broker, op: Operation, sub: Subscription) {
    && sub.listener == b.nextListener && c.nextListener == b.nextListener + 1
    && sub.birth == (if Owns(b, op) then b.states[op.id].birth else b.nextBirth)
    && op.id in c.states && OthersStay(b, c, op.id) && c.now == b.now
    && var s := c.states[op.id];
       && s.birth == sub.birth && s.accountId == op.accountId && s.interviewId == op.interviewId && s.attemptCount == op.attemptCount
       && s.events == EventsFor(b, op) && s.nextSequence == NextNumber(b, op)
       && s.listeners == Heard(b, op) + {sub.listener} && s.touchedAt == b.now
  }

  ghost predicate Joins(b: Broker, c: Broker, op: Operation, last: int, sub: Subscription) {
    Replays(EventsFor(b, op), last, sub) && Enters(b, c, op, sub)
  }

  /** The number of the terminal event, which is the last one. */
  function EndOf(events: seq<StreamEvent>): Option<int> {
    if events != [] && events[|events| - 1].Terminal? then Some(events[|events| - 1].sequence) else None
  }

  lemma EndIsTerminal(events: seq<StreamEvent>)
    requires OneTerminal(events)
    ensures EndOf(events) == match TerminalOf(events) case None => None case Some(e) => Some(e.sequence)
  {
  }

  lemma MetWindow(b: Broker, op: Operation) returns (next: int)
    requires Inv(b)
    ensures Increasing(EventsFor(b, op), next) && OneTerminal(EventsFor(b, op))
  {
    next := 1;
    if Owns(b, op) {
      WindowIncreases(b, op.id);
      assert StreamOk(b, op.id);
      next := b.states[op.id].nextSequence;
      assert next >= 1 by {
        SuffixIncreases(b.logs[b.states[op.id].birth].events, 0, next);
      }
    }
  }

  function Replayed(events: seq<StreamEvent>, last: int, listener: nat, birth: nat): Subscription {
    Subscription(Filter(After(last), events), match TerminalOf(events) case None => None case Some(e) => Some(e.sequence), listener, birth)
  }

  lemma AttachGives(f: Broker, op: Operation, last: int, truncated: bool)
    requires Attach(f, op, last, truncated).1.Some?
    ensures var r, (c, found) := SyncAttempt(f, op), Attach(f, op, last, truncated);
            op.id in r.states && c == Join(r, op.id)
            && found.value == Replayed(r.states[op.id].events, last, r.nextListener, r.states[op.id].birth)
  {
  }

  lemma MetReplays(b: Broker, op: Operation, last: int, listener: nat, birth: nat)
    requires Inv(b)
    ensures Replays(EventsFor(b, op), last, Replayed(EventsFor(b, op), last, listener, birth))
  {
    var next := MetWindow(b, op);
    FilterIsLaterPart(EventsFor(b, op), next, last);
    EndIsTerminal(EventsFor(b, op));
  }

  lemma MetEnters(b: Broker, r: Broker, op: Operation, sub: Subscription)
    requires IsMet(b, r, op) && sub.listener == r.nextListener && sub.birth == r.states[op.id].birth
    ensures Enters(b, Join(r, op.id), op, sub)
  {
  }

  lemma AttachedJoins(b: Broker, f: Broker, op: Operation, last: int, truncated: bool)
    requires Inv(b) && op.id in f.states && IsMet(b, SyncAttempt(f, op), op) && Attach(f, op, last, truncated).1.Some?
    ensures Joins(b, Attach(f, op, last, truncated).0, op, last, Attach(f, op, last, truncated).1.value)
  {
    AttachGives(f, op, last, truncated);
    var sub := Attach(f, op, last, truncated).1.value;
    MetEnters(b, SyncAttempt(f, op), op, sub);
    MetReplays(b, op, last, sub.listener, sub.birth);
  }

  lemma SubscribedJoins(b: Broker, op: Operation, last: int, truncated: bool)
    requires Inv(b) && !IsErased(b, op) && SubscribeOn(SubscribeTarget(b, op), op, last, truncated).1.Some?
    ensures Joins(b, SubscribeOn(SubscribeTarget(b, op), op, last, truncated).0, op, last,
                  SubscribeOn(SubscribeTarget(b, op), op, last, truncated).1.value)
  {
    if !Stands(b, op.id) {
      assert SubscribeTarget(b, op) == Drop(b, op.id) by {
        assert op.id !in b.states ==> b.states - {op.id} == b.states;
      }
      NewIsMet(b, op);
      AttachedJoins(b, FindState(Drop(b, op.id), op, false), op, last, truncated);
    } else if SameTarget(b.states[op.id], op) {
      NoneWhenClosed(b, op.id);
      ExpiredOwn(b, op);
      OwnIsMet(b, op);
      AttachedJoins(b, ExpireHistory(b, op.id), op, last, truncated);
    } else {
      OtherTargetRefused(b, op, last, truncated);
    }
  }

  lemma MetAlike(b: Broker, looked: Broker, op: Operation)
    requires looked.states == b.states && looked.now == b.now
    ensures (Owns(looked, op) <==> Owns(b, op)) && EventsFor(looked, op) == EventsFor(b, op)
    ensures NextNumber(looked, op) == NextNumber(b, op) && Heard(looked, op) == Heard(b, op)
  {
  }

  lemma EntersAlike(b: Broker, looked: Broker, c: Broker, op: Operation, sub: Subscription)
    requires looked.states == b.states && looked.now == b.now && looked.nextListener == b.nextListener && looked.nextBirth == b.nextBirth
    requires Enters(looked, c, op, sub)
    ensures Enters(b, c, op, sub)
  {
    MetAlike(b, looked, op);
  }

  /** What every accepted subscription gets, on every broker that satisfies the invariant. */
  lemma SubscriptionJoins(b: Broker, op: Operation, last: int, truncated: bool)
    requires Inv(b) && Subscribe(b, op, last, truncated).1.Some?
    ensures Joins(b, Subscribe(b, op, last, truncated).0, op, last, Subscribe(b, op, last, truncated).1.value)
  {
    var looked := AfterErasedCheck(b, op);
    CheckKeeps(b, op);
    assert !IsErased(looked, op);
    SubscribedJoins(looked, op, last, truncated);
    var c, sub := Subscribe(b, op, last, truncated).0, Subscribe(b, op, last, truncated).1.value;
    EntersAlike(b, looked, c, op, sub);
    MetAlike(b, looked, op);
  }

  // ---------- leaving, beginning an attempt, erasing ----------

  function Without(s: Stream, listener: nat): Stream {
    s.(listeners := s.listeners - {listener})
  }

  /** Leaving removes the listener from its stream; streams go only without listeners, and the others stay as they are. */
  lemma LeavingLeaves(b: Broker, id: Id, birth: nat, listener: nat)
    ensures var c := Unsubscribe(b, id, birth, listener);
            && OthersStay(b, c, id) && c.logs == b.logs && c.feeds == b.feeds
            && (id in c.states ==>
                  && id in b.states
                  && c.states[id] == if b.states[id].birth == birth then Without(b.states[id], listener) else b.states[id])
            && (forall other :: other in b.states && other !in c.states && other != id ==>
                  b.states[other].listeners == {} && b.states[other].events != [])
            && (id in b.states && id !in c.states ==> b.states[id].listeners <= {listener})
  {
    TrimRemoves(Left(b, id, birth, listener).states, b.config.historyOperationLimit);
  }

  /** Beginning an attempt: the operation's own stream is of that attempt, or still of a later one, with what is
      retained for the attempt, and otherwise as before; a stream that does not stand or is of another target goes. */
  lemma BeginningLeaves(b: Broker, op: Operation)
    requires Inv(b)
    ensures var c := BeginAttempt(b, op);
            && OthersStay(b, c, op.id) && (forall other :: other in b.states && other != op.id ==> other in c.states)
            && (op.id in c.states <==> Owns(b, op))
            && (Owns(b, op) ==>
                  var s := b.states[op.id];
                  && c.states[op.id].attemptCount == Greatest(s.attemptCount, op.attemptCount) && c.states[op.id].events == EventsFor(b, op)
                  && c.states[op.id].birth == s.birth && SameBut(s, c.states[op.id]))
  {
    if op.id in b.states {
      NoneWhenClosed(b, op.id);
    }
    if Owns(b, op) {
      BeginningOwn(b, op);
    }
  }

  lemma BeginningOwn(b: Broker, op: Operation)
    requires Inv(b) && Owns(b, op)
    ensures var s, c := b.states[op.id], BeginAttempt(b, op);
            && op.id in c.states && OthersStay(b, c, op.id) && (forall other :: other in b.states && other != op.id ==> other in c.states)
            && c.states[op.id].attemptCount == Greatest(s.attemptCount, op.attemptCount) && c.states[op.id].events == EventsFor(b, op)
            && c.states[op.id].birth == s.birth && SameBut(s, c.states[op.id])
  {
    var e := ExpireHistory(b, op.id);
    NoneWhenClosed(b, op.id);
    ExpiredOwn(b, op);
    ExpireKeepsNames(b, op.id);
    if op.attemptCount >= e.states[op.id].attemptCount {
      SyncedStream(e, op);
      SyncKeepsNames(e, op);
    }
  }

  /** The stream is of the erased operation, account or interview. */
  predicate Concerns(grave: Grave, id: Id, s: Stream) {
    || grave == OperationGrave(id) || grave == AccountGrave(s.accountId) || grave == InterviewGrave(s.accountId, s.interviewId)
  }

  /** Erasing deletes exactly the streams concerned, and leaves the others as they are. */
  lemma ErasingLeaves(b: Broker, grave: Grave)
    ensures var c := Erase(b, grave);
            forall id :: id in c.states <==> id in b.states && !Concerns(grave, id, b.states[id])
    ensures forall id :: id in Erase(b, grave).states && id in b.states ==> Erase(b, grave).states[id] == b.states[id]
  {
  }
}
