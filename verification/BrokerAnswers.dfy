/** What the answers of the broker's calls say about what was published. */
module BrokerAnswers {
  import opened InterviewModel
  import opened BrokerModel
  import opened BrokerInvariant

  /** Everything published on the stream of that birth. */
  function EventsIn(b: Broker, birth: nat): seq<StreamEvent> {
    if birth in b.logs then b.logs[birth].events else []
  }

  /** Nothing was published. */
  ghost predicate SameEvents(b: Broker, c: Broker) {
    forall birth: nat {:trigger EventsIn(c, birth)} :: EventsIn(c, birth) == EventsIn(b, birth)
  }

  /** These events were published on the stream of that birth, and nothing else. */
  ghost predicate Adds(b: Broker, c: Broker, id: Id, birth: nat, added: seq<StreamEvent>) {
    && birth in c.logs && c.logs[birth].owner == id && EventsIn(c, birth) == EventsIn(b, birth) + added
    && forall other: nat {:trigger EventsIn(c, other)} :: other != birth ==> EventsIn(c, other) == EventsIn(b, other)
  }

  /** The next number of the operation's stream, or the first of a new stream. */
  function NumberAt(b: Broker, id: Id, birth: nat): int {
    if id in b.states && b.states[id].birth == birth then b.states[id].nextSequence else 1
  }

  /** The message was published on the operation's stream of that birth, and nothing else was: its first `count`
      events, with the next numbers. */
  ghost predicate Announces(b: Broker, c: Broker, op: Operation, m: Message, birth: nat, count: nat) {
    var events := EventsOf(op, m, NumberAt(b, op.id, birth));
    0 < count <= |events| && Adds(b, c, op.id, birth, events[..count])
  }

  /** Nothing was published, and the stream, if any, has its number and its history, or is new. */
  ghost predicate Prepares(b: Broker, c: Broker, id: Id) {
    SameEvents(b, c) && (id in c.states ==> Carries(b, c.states[id], id))
  }

  predicate Carries(b: Broker, s: Stream, id: Id) {
    && s.nextSequence == NumberAt(b, id, s.birth)
    && (s.events != [] ==> id in b.states && s.events == b.states[id].events)
  }

  lemma SameTwice(b: Broker, r: Broker, c: Broker)
    requires SameEvents(b, r) && SameEvents(r, c)
    ensures SameEvents(b, c)
  {
    forall birth: nat ensures EventsIn(c, birth) == EventsIn(b, birth) {
      assert EventsIn(r, birth) == EventsIn(b, birth);
    }
  }

  lemma SameLogs(b: Broker, c: Broker)
    requires c.logs == b.logs
    ensures SameEvents(b, c)
  {
  }

  lemma ExpirePrepares(b: Broker, id: Id)
    ensures Prepares(b, ExpireHistory(b, id), id)
  {
  }

  lemma CreatePrepares(b: Broker, op: Operation, unknown: bool)
    requires Inv(b) && !IsErased(b, op)
    ensures var c := CreateState(b, op, unknown);
            SameEvents(b, c) && (op.id in c.states ==> op.id in b.states || c.states[op.id] == NewStream(b, op, unknown))
  {
    if !b.closed {
      var d := Born(b, op, unknown);
      BirthKeeps(b, op, unknown);
      TrimKeeps(d);
      assert SameEvents(b, d);
      SameLogs(d, Trim(d));
    }
  }

  /** A new stream is new to every earlier broker. */
  lemma NewIsPrepared(b: Broker, e: Broker, op: Operation, unknown: bool)
    requires Inv(b) && e.nextBirth == b.nextBirth
    ensures Carries(b, NewStream(e, op, unknown), op.id)
  {
    assert op.id in b.states ==> StreamOk(b, op.id);
  }

  lemma OpenPrepares(b: Broker, op: Operation, unknown: bool)
    requires Inv(b) && !IsErased(b, op)
    ensures Prepares(b, OpenState(b, op, unknown), op.id)
  {
    var e := ExpireHistory(b, op.id);
    ExpireKeeps(b, op.id);
    ExpirePrepares(b, op.id);
    if op.id in e.states && SameTarget(e.states[op.id], op) {
      SameLogs(e, Found(e, op, unknown));
      SameTwice(b, e, Found(e, op, unknown));
    } else {
      ReplacedPrepares(b, e, op, unknown);
    }
  }

  lemma ReplacedPrepares(b: Broker, e: Broker, op: Operation, unknown: bool)
    requires Inv(b) && Inv(e) && SameEvents(b, e) && e.nextBirth == b.nextBirth && !IsErased(e, op)
    ensures Prepares(b, CreateState(Drop(e, op.id), op, unknown), op.id)
  {
    var d := Drop(e, op.id);
    DropKeeps(e, op.id);
    CreatePrepares(d, op, unknown);
    NewIsPrepared(b, d, op, unknown);
    SameLogs(e, d);
    SameTwice(b, e, d);
    SameTwice(b, d, CreateState(d, op, unknown));
  }

  lemma FindPrepares(b: Broker, op: Operation, unknown: bool)
    requires Inv(b)
    ensures Prepares(b, FindState(b, op, unknown), op.id)
  {
    var looked := AfterErasedCheck(b, op);
    CheckKeeps(b, op);
    LookedLogs(b, op);
    SameLogs(b, looked);
    if !IsErased(b, op) {
      OpenPrepares(looked, op, unknown);
      SameTwice(b, looked, OpenState(looked, op, unknown));
    } else {
      SameLogs(b, Drop(looked, op.id));
    }
  }

  lemma LookedLogs(b: Broker, op: Operation)
    ensures AfterErasedCheck(b, op).logs == b.logs && AfterErasedCheck(b, op).states == b.states
  {
  }

  lemma ReadyPrepares(b: Broker, op: Operation, unknown: bool)
    requires Inv(b)
    ensures Prepares(b, Ready(b, op, unknown), op.id) && Prepares(b, FindState(b, op, unknown), op.id)
  {
    var f := FindState(b, op, unknown);
    FindPrepares(b, op, unknown);
    SyncPrepares(b, f, op);
  }

  lemma SyncPrepares(b: Broker, f: Broker, op: Operation)
    requires Prepares(b, f, op.id)
    ensures Prepares(b, SyncAttempt(f, op), op.id)
  {
    SyncSame(f, op);
    SameTwice(b, f, SyncAttempt(f, op));
  }

  lemma SyncSame(f: Broker, op: Operation)
    ensures SameEvents(f, SyncAttempt(f, op))
    ensures op.id in SyncAttempt(f, op).states ==>
              var s, t := f.states[op.id], SyncAttempt(f, op).states[op.id];
              op.id in f.states && t.birth == s.birth && t.nextSequence == s.nextSequence && (t.events == [] || t.events == s.events)
  {
  }

  // ---------- publishing ----------

  lemma PublishAdds(b: Broker, id: Id, birth: nat, e: StreamEvent, failing: set<nat>)
    requires Inv(b)
    ensures var c := Publish(b, id, birth, e, failing);
            if id in b.states && b.states[id].birth == birth then Adds(b, c, id, birth, [e]) else SameEvents(b, c)
  {
    assert id in b.states ==> StreamOk(b, id);
  }

  lemma PublishOne(b: Broker, id: Id, birth: nat, e: StreamEvent, failing: set<nat>)
    ensures PublishAll(b, id, birth, [e], failing) == Publish(b, id, birth, e, failing)
  {
    assert [e][1..] == [];
  }

  lemma PublishTwo(b: Broker, id: Id, birth: nat, t: StreamEvent, e: StreamEvent, failing: set<nat>)
    ensures PublishAll(b, id, birth, [t, e], failing) == Publish(Publish(b, id, birth, t, failing), id, birth, e, failing)
  {
    assert [t, e][1..] == [e];
    PublishOne(Publish(b, id, birth, t, failing), id, birth, e, failing);
  }

  lemma AddsMore(b: Broker, c: Broker, d: Broker, id: Id, birth: nat, e: StreamEvent, more: seq<StreamEvent>)
    requires Adds(b, c, id, birth, [e]) && Adds(c, d, id, birth, more)
    ensures Adds(b, d, id, birth, [e] + more)
  {
    assert EventsIn(b, birth) + [e] + more == EventsIn(b, birth) + ([e] + more);
    forall other: nat | other != birth ensures EventsIn(d, other) == EventsIn(b, other) {
      assert EventsIn(c, other) == EventsIn(b, other);
    }
  }

  lemma AddsNoMore(b: Broker, c: Broker, d: Broker, id: Id, birth: nat, added: seq<StreamEvent>)
    requires Adds(b, c, id, birth, added) && SameEvents(c, d) && added != []
    requires birth in d.logs && d.logs[birth].owner == id
    ensures Adds(b, d, id, birth, added)
  {
    assert EventsIn(d, birth) == EventsIn(c, birth);
    forall other: nat | other != birth ensures EventsIn(d, other) == EventsIn(b, other) {
      assert EventsIn(c, other) == EventsIn(b, other) && EventsIn(d, other) == EventsIn(c, other);
    }
  }

  lemma AddsFirst(b: Broker, c: Broker, d: Broker, id: Id, birth: nat, events: seq<StreamEvent>, count: nat)
    requires events != [] && count < |events| && Adds(b, c, id, birth, [events[0]])
    requires if count > 0 then Adds(c, d, id, birth, events[1..][..count])
             else SameEvents(c, d) && birth in d.logs && d.logs[birth].owner == id
    ensures Adds(b, d, id, birth, events[..count + 1])
  {
    assert [events[0]] + events[1..][..count] == events[..count + 1];
    if count > 0 {
      AddsMore(b, c, d, id, birth, events[0], events[1..][..count]);
    } else {
      AddsNoMore(b, c, d, id, birth, [events[0]]);
    }
  }

  /** On a stream that is there at first, at least the first event is published. */
  lemma {:induction false} PublishAllAdds(b: Broker, id: Id, birth: nat, events: seq<StreamEvent>, failing: set<nat>) returns (count: nat)
    requires Inv(b) && MayPushAll(b, id, birth, events) && events != []
    ensures var c := PublishAll(b, id, birth, events, failing);
            if id in b.states && b.states[id].birth == birth then 0 < count <= |events| && Adds(b, c, id, birth, events[..count])
            else count == 0 && SameEvents(b, c)
    decreases |events|
  {
    var c, rest := Publish(b, id, birth, events[0], failing), events[1..];
    PublishKeeps(b, id, birth, events[0], failing);
    PublishAdds(b, id, birth, events[0], failing);
    count := 0;
    var d := PublishAll(c, id, birth, rest, failing);
    if rest != [] {
      MayPushRest(b, id, birth, events, failing);
      PublishAllKeeps(c, id, birth, rest, failing);
      count := PublishAllAdds(c, id, birth, rest, failing);
    } else {
      SameLogs(c, d);
    }
    if id in b.states && b.states[id].birth == birth {
      if count == 0 {
        assert rest != [] ==> LogGrows(c, d, birth);
      }
      AddsFirst(b, c, d, id, birth, events, count);
      count := count + 1;
    } else {
      PublishLeaves(b, id, birth, events[0], failing);
      SameTwice(b, c, d);
    }
  }

  /** A stream that is gone stays gone. */
  lemma PublishLeaves(b: Broker, id: Id, birth: nat, e: StreamEvent, failing: set<nat>)
    requires !(id in b.states && b.states[id].birth == birth)
    ensures var c := Publish(b, id, birth, e, failing);
            !(id in c.states && c.states[id].birth == birth)
  {
  }

  /** A ready stream without terminal event and with numbers left publishes, if the mappings succeed. */
  lemma EmitAdds(r: Broker, op: Operation, m: Message, failing: set<nat>) returns (count: nat)
    requires Inv(r)
    ensures var (c, answer) := Emit(r, op, m, failing);
            if op.id in r.states && TerminalOf(r.states[op.id].events).None? && (answer.One? || answer.Two?) then
              var events := EventsOf(op, m, r.states[op.id].nextSequence);
              answer == Answer(events) && 0 < count <= |events| && Adds(r, c, op.id, r.states[op.id].birth, events[..count])
            else SameEvents(r, c) && (answer.One? || answer.Two? ==> op.id in r.states && c == r && answer == Existing(r.states[op.id].events, m))
  {
    count := 0;
    if op.id in r.states && TerminalOf(r.states[op.id].events).None? {
      var taken := TakeNumbers(r, op.id, Numbers(m));
      SameLogs(r, taken);
      TakeKeeps(r, op.id, Numbers(m));
      if HasNumbers(r, op.id, Numbers(m)) {
        var birth, events := r.states[op.id].birth, EventsOf(op, m, r.states[op.id].nextSequence);
        TakenMayPush(r, op, m);
        count := PublishAllAdds(taken, op.id, birth, events, failing);
        TakenAdds(r, taken, PublishAll(taken, op.id, birth, events, failing), op.id, birth, events[..count]);
      }
    } else {
      SameLogs(r, r);
    }
  }

  /** Taking numbers publishes nothing. */
  lemma TakenAdds(r: Broker, taken: Broker, c: Broker, id: Id, birth: nat, added: seq<StreamEvent>)
    requires taken.logs == r.logs && Adds(taken, c, id, birth, added)
    ensures Adds(r, c, id, birth, added)
  {
    assert forall other: nat :: EventsIn(taken, other) == EventsIn(r, other);
  }

  /** A prepared stream and events on it. */
  lemma Announced(b: Broker, r: Broker, c: Broker, op: Operation, m: Message, count: nat)
    requires Prepares(b, r, op.id) && op.id in r.states
    requires var events := EventsOf(op, m, r.states[op.id].nextSequence);
             0 < count <= |events| && Adds(r, c, op.id, r.states[op.id].birth, events[..count])
    ensures Announces(b, c, op, m, r.states[op.id].birth, count)
  {
    var birth := r.states[op.id].birth;
    assert EventsIn(r, birth) == EventsIn(b, birth);
    forall other: nat | other != birth ensures EventsIn(c, other) == EventsIn(b, other) {
      assert EventsIn(r, other) == EventsIn(b, other);
    }
  }

  /** The answer names what was published: the events of the message, with the next numbers of the operation's
      stream or the first of a new one. Of two events only the first is published when trimming deletes the
      stream in between. A call for the end may instead answer the terminal event that the stream still retains;
      an answer without events means that nothing was published. */
  ghost predicate Names(b: Broker, c: Broker, answer: Published, op: Operation, m: Message, birth: nat, count: nat) {
    if answer.One? || answer.Two? then
      || (answer == Answer(EventsOf(op, m, NumberAt(b, op.id, birth))) && Announces(b, c, op, m, birth, count))
      || (m.SayEnd? && SameEvents(b, c) && op.id in b.states && answer == Existing(b.states[op.id].events, m))
    else SameEvents(b, c)
  }

  lemma EmitNames(b: Broker, r: Broker, op: Operation, m: Message, failing: set<nat>) returns (birth: nat, count: nat)
    requires Inv(r) && Prepares(b, r, op.id)
    ensures Names(b, Emit(r, op, m, failing).0, Emit(r, op, m, failing).1, op, m, birth, count)
  {
    count := EmitAdds(r, op, m, failing);
    birth := if op.id in r.states then r.states[op.id].birth else 0;
    var (c, answer) := Emit(r, op, m, failing);
    if op.id in r.states && TerminalOf(r.states[op.id].events).None? && (answer.One? || answer.Two?) {
      Announced(b, r, c, op, m, count);
    } else {
      SameTwice(b, r, c);
    }
  }

  lemma AnswerNamesWhatWasPublished(b: Broker, op: Operation, m: Message, unknown: bool, failing: set<nat>) returns (birth: nat, count: nat)
    requires Inv(b)
    ensures Names(b, Send(b, op, m, unknown, failing).0, Send(b, op, m, unknown, failing).1, op, m, birth, count)
  {
    ReadyKeeps(b, op, unknown);
    ReadyPrepares(b, op, unknown);
    SameLogs(b, b);
    birth, count := EmitNames(b, Ready(b, op, unknown), op, m, failing);
  }

  /** What is answered never has another shape than the message. */
  predicate Fits(answer: Published, m: Message) {
    answer.Refused? || answer.MappingFailed? || if m.SayBoth? then answer.Two? else answer.One?
  }

  lemma EmitFits(r: Broker, op: Operation, m: Message, failing: set<nat>)
    ensures Fits(Emit(r, op, m, failing).1, m)
  {
  }

  lemma AnswerFits(b: Broker, op: Operation, m: Message, unknown: bool, failing: set<nat>)
    ensures Fits(Send(b, op, m, unknown, failing).1, m)
  {
    EmitFits(Ready(b, op, unknown), op, m, failing);
  }

  // ---------- the second of two events ----------

  /** The ready stream with the first of two events on it, before trimming. */
  function WithFirst(r: Broker, op: Operation, text: string, at: int, failing: set<nat>): Broker
    requires HasNumbers(r, op.id, 2)
  {
    Extended(TakeNumbers(r, op.id, 2), op.id, TextDelta(r.states[op.id].nextSequence, text, at), failing)
  }

  lemma PublishedThere(b: Broker, id: Id, birth: nat, e: StreamEvent, failing: set<nat>)
    requires id in b.states && b.states[id].birth == birth
    ensures var d, c := Extended(b, id, e, failing), Publish(b, id, birth, e, failing);
            && c == Trim(d)
            && (id in c.states <==> id !in Trimmed(d.states, b.config.historyOperationLimit))
            && (id in c.states ==> c.states[id].birth == birth)
  {
  }

  lemma PublishTwoAdds(b: Broker, id: Id, birth: nat, t: StreamEvent, e: StreamEvent, failing: set<nat>)
    requires Inv(b) && MayPushAll(b, id, birth, [t, e]) && id in b.states && b.states[id].birth == birth
    ensures var c := PublishAll(b, id, birth, [t, e], failing);
            if id in Trimmed(Extended(b, id, t, failing).states, b.config.historyOperationLimit) then Adds(b, c, id, birth, [t])
            else Adds(b, c, id, birth, [t, e])
  {
    var first := Publish(b, id, birth, t, failing);
    PublishedThere(b, id, birth, t, failing);
    MayPushRest(b, id, birth, [t, e], failing);
    PublishKeeps(b, id, birth, t, failing);
    PublishAdds(b, id, birth, t, failing);
    PublishAdds(first, id, birth, e, failing);
    var second := Publish(first, id, birth, e, failing);
    assert [t, e][1..] == [e];
    PublishTwo(b, id, birth, t, e, failing);
    if id in first.states {
      AddsMore(b, first, second, id, birth, t, [e]);
      assert [t] + [e] == [t, e];
    } else {
      assert birth in first.logs;
      AddsNoMore(b, first, second, id, birth, [t]);
    }
  }

  /** Of a text and a terminal event that are answered together, the terminal event was published if and only if
      the stream with the text on it is not one of those that trimming deletes: it has a listener that does not
      throw, or as many idle streams come before it as operations retain history too many. */
  lemma SecondIsPublishedIffNotTrimmed(b: Broker, op: Operation, text: string, at: int, failing: set<nat>)
    requires Inv(b) && Send(b, op, SayBoth(text, at), false, failing).1.Two?
    ensures var r, answer := Ready(b, op, false), Send(b, op, SayBoth(text, at), false, failing).1;
            && op.id in r.states && HasNumbers(r, op.id, 2)
            && (Adds(r, Send(b, op, SayBoth(text, at), false, failing).0, op.id, r.states[op.id].birth, [answer.text, answer.terminal])
                <==> op.id !in Trimmed(WithFirst(r, op, text, at, failing).states, b.config.historyOperationLimit))
  {
    var r := Ready(b, op, false);
    ReadyKeeps(b, op, false);
    SecondOnReady(r, op, text, at, failing);
  }

  lemma SecondOnReady(r: Broker, op: Operation, text: string, at: int, failing: set<nat>)
    requires Inv(r) && Emit(r, op, SayBoth(text, at), failing).1.Two?
    ensures var (c, answer) := Emit(r, op, SayBoth(text, at), failing);
            && op.id in r.states && HasNumbers(r, op.id, 2)
            && (Adds(r, c, op.id, r.states[op.id].birth, [answer.text, answer.terminal])
                <==> op.id !in Trimmed(WithFirst(r, op, text, at, failing).states, r.config.historyOperationLimit))
  {
    var (c, answer) := Emit(r, op, SayBoth(text, at), failing);
    var birth, taken := r.states[op.id].birth, TakeNumbers(r, op.id, 2);
    TakeKeeps(r, op.id, 2);
    TakenMayPush(r, op, SayBoth(text, at));
    PublishTwoAdds(taken, op.id, birth, answer.text, answer.terminal, failing);
    if op.id in Trimmed(WithFirst(r, op, text, at, failing).states, r.config.historyOperationLimit) {
      TakenAdds(r, taken, c, op.id, birth, [answer.text]);
      assert |EventsIn(c, birth)| == |EventsIn(r, birth)| + 1;
    } else {
      TakenAdds(r, taken, c, op.id, birth, [answer.text, answer.terminal]);
    }
  }
}
