/** The broker refines an unbounded log: what every stream and every listener holds, in every reachable state. */
module BrokerInvariant {
  import opened Basics
  import opened InterviewModel
  import opened BrokerModel

  // ---------- logs, windows, feeds ----------

  /** Sequence numbers start at 1 or later, strictly increase, and stay below `next`. */
  predicate Increasing(log: seq<StreamEvent>, next: int) {
    if log == [] then next >= 1
    else log[|log| - 1].sequence < next && Increasing(log[..|log| - 1], log[|log| - 1].sequence)
  }

  lemma IncreasingSnoc(log: seq<StreamEvent>, e: StreamEvent, next: int)
    requires Increasing(log, e.sequence) && e.sequence < next
    ensures Increasing(log + [e], next)
  {
    assert (log + [e])[..|log|] == log;
  }

  lemma IncreasingUp(log: seq<StreamEvent>, low: int, high: int)
    requires Increasing(log, low) && low <= high
    ensures Increasing(log, high)
  {
  }

  /** The window is the end of the log. */
  predicate IsSuffix<T(==)>(window: seq<T>, log: seq<T>) {
    |window| <= |log| && window == log[|log| - |window|..]
  }

  lemma SuffixSnoc<T>(window: seq<T>, log: seq<T>, e: T, limit: nat)
    requires IsSuffix(window, log)
    ensures IsSuffix(LastOf(window + [e], limit), log + [e])
  {
    assert log + [e] == log[..|log| - |window|] + (window + [e]);
  }

  /** At most one terminal event, and it is the last one. */
  predicate OneTerminal(events: seq<StreamEvent>) {
    events == [] || TerminalOf(events[..|events| - 1]).None?
  }

  lemma TerminalSnoc(events: seq<StreamEvent>, e: StreamEvent, limit: nat)
    requires TerminalOf(events).None? && limit >= 1
    ensures OneTerminal(LastOf(events + [e], limit))
  {
    var all := events + [e];
    if |all| > limit {
      var cut := |all| - limit;
      assert all[cut..][..limit - 1] == events[cut..];
      NoTerminalSuffix(events, cut);
    } else {
      assert all[..|events|] == events;
    }
  }

  lemma {:induction false} NoTerminalSuffix(events: seq<StreamEvent>, cut: nat)
    requires TerminalOf(events).None? && cut <= |events|
    ensures TerminalOf(events[cut..]).None?
    decreases |events|
  {
    if cut < |events| {
      assert events[cut..][..|events| - cut - 1] == events[..|events| - 1][cut..];
      NoTerminalSuffix(events[..|events| - 1], cut);
    }
  }

  // ---------- terminal events in the whole log ----------

  /** The window was cleared after event `i` was published and before event `j` was. */
  predicate ClearedBetween(log: Log, i: nat, j: nat) {
    exists k :: 0 <= k < |log.clearings| && i < log.clearings[k].at <= j
  }

  /** Between any two terminal events of a log its window was cleared. */
  ghost predicate TerminalsApart(log: Log) {
    forall i, j {:trigger log.events[i], log.events[j]} ::
      0 <= i < j < |log.events| && log.events[i].Terminal? && log.events[j].Terminal? ==> ClearedBetween(log, i, j)
  }

  /** The window was cleared after every terminal event so far. */
  ghost predicate TerminalsCleared(log: Log) {
    forall i :: 0 <= i < |log.events| && log.events[i].Terminal? ==> ClearedBetween(log, i, |log.events|)
  }

  /** A clearing has one of two reasons: the history had expired, or a later attempt began. */
  predicate Reasonable(log: Log, why: Clearing) {
    why.at <= |log.events| && if why.Expiry? then why.expiresAt <= why.now else why.from < why.to
  }

  ghost predicate LogOk(logs: map<nat, Log>, birth: nat) {
    birth in logs && TerminalsApart(logs[birth]) && forall why :: why in logs[birth].clearings ==> Reasonable(logs[birth], why)
  }

  lemma ClearedBetweenGrows(log: Log, i: nat, j: nat, e: seq<StreamEvent>, why: seq<Clearing>)
    requires ClearedBetween(log, i, j)
    ensures ClearedBetween(Log(log.owner, log.events + e, log.clearings + why), i, j)
  {
    var k :| 0 <= k < |log.clearings| && i < log.clearings[k].at <= j;
    assert (log.clearings + why)[k] == log.clearings[k];
  }

  /** A pushed event leaves terminal events apart when all earlier ones were cleared. */
  lemma PushedApart(log: Log, e: StreamEvent)
    requires TerminalsApart(log) && TerminalsCleared(log)
    ensures TerminalsApart(log.(events := log.events + [e]))
    ensures e.TextDelta? ==> TerminalsCleared(log.(events := log.events + [e]))
  {
    var log' := log.(events := log.events + [e]);
    forall i, j | 0 <= i < j < |log'.events| && log'.events[i].Terminal? && log'.events[j].Terminal? ensures ClearedBetween(log', i, j) {
      assert log.events[i].Terminal?;
      if j < |log.events| {
        assert log.events[j].Terminal?;
        ClearedBetweenGrows(log, i, j, [e], []);
      } else {
        ClearedBetweenGrows(log, i, j, [e], []);
      }
      assert log.clearings + [] == log.clearings;
    }
    if e.TextDelta? {
      forall i | 0 <= i < |log'.events| && log'.events[i].Terminal? ensures ClearedBetween(log', i, |log'.events|) {
        assert ClearedBetween(log, i, |log.events|);
      }
    }
  }

  /** Clearing leaves terminal events apart, and all of them cleared. */
  lemma NotedApart(log: Log, why: Clearing)
    requires TerminalsApart(log) && why.at == |log.events|
    ensures TerminalsApart(log.(clearings := log.clearings + [why])) && TerminalsCleared(log.(clearings := log.clearings + [why]))
  {
    var log' := log.(clearings := log.clearings + [why]);
    assert log'.clearings[|log.clearings|] == why;
    forall i, j | 0 <= i < j < |log'.events| && log'.events[i].Terminal? && log'.events[j].Terminal? ensures ClearedBetween(log', i, j) {
      ClearedBetweenGrows(log, i, j, [], [why]);
      assert log.events + [] == log.events;
    }
  }

  /** The listener belongs to the stream, and was sent exactly what was published since it joined. */
  predicate ListenerOk(b: Broker, l: nat, birth: nat) {
    && l in b.feeds && l < b.nextListener && b.feeds[l].birth == birth && birth in b.logs
    && b.feeds[l].start <= |b.logs[birth].events|
    && b.feeds[l].received == b.logs[birth].events[b.feeds[l].start..]
    && (forall e :: e in b.feeds[l].received ==> e.sequence >= b.feeds[l].floor)
  }

  /** A stream against its log. */
  ghost predicate StreamOk(b: Broker, id: Id) {
    id in b.states &&
    var s := b.states[id];
    && s.birth in b.logs && s.birth < b.nextBirth && b.logs[s.birth].owner == id
    && Increasing(b.logs[s.birth].events, s.nextSequence)
    && IsSuffix(s.events, b.logs[s.birth].events) && |s.events| <= b.config.historyLimit && OneTerminal(s.events)
    && (s.events != [] <==> s.historyExpiresAt.Some?)
    && (TerminalOf(s.events).None? ==> TerminalsCleared(b.logs[s.birth]))
    && (forall birth :: birth in b.logs && b.logs[birth].owner == id ==> birth <= s.birth)
    && (forall l :: l in s.listeners ==> ListenerOk(b, l, s.birth) && b.feeds[l].floor <= s.nextSequence)
  }

  /** No stream is covered by a tombstone that holds. */
  ghost predicate Unburied(b: Broker, id: Id) {
    id in b.states && forall grave {:trigger Covers(grave, id, b.states[id])} :: Covers(grave, id, b.states[id]) ==> !Buried(b, grave)
  }

  ghost predicate Inv(b: Broker) {
    && ValidConfig(b.config)
    && (forall id {:trigger StreamOk(b, id)} :: id in b.states ==> StreamOk(b, id))
    && (forall id {:trigger Unburied(b, id)} :: id in b.states ==> Unburied(b, id))
    && (forall birth :: birth in b.logs ==> birth < b.nextBirth)
    && (forall birth {:trigger LogOk(b.logs, birth)} :: birth in b.logs ==> LogOk(b.logs, birth))
    && (forall l :: l in b.feeds ==> l < b.nextListener)
    && (b.closed ==> b.states == map[])
  }

  /** Logs and feeds only grow, and streams of the same birth only move on. */
  ghost predicate Steady(b: Broker, c: Broker) {
    && c.config == b.config && c.nextBirth >= b.nextBirth && c.nextListener >= b.nextListener && (b.closed ==> c.closed)
    && (forall birth {:trigger LogGrows(b, c, birth)} :: birth in b.logs ==> LogGrows(b, c, birth))
    && (forall l {:trigger FeedGrows(b, c, l)} :: l in b.feeds ==> FeedGrows(b, c, l))
  }

  predicate LogGrows(b: Broker, c: Broker, birth: nat) {
    birth in b.logs && birth in c.logs && c.logs[birth].owner == b.logs[birth].owner
    && b.logs[birth].events <= c.logs[birth].events && b.logs[birth].clearings <= c.logs[birth].clearings
  }

  predicate FeedGrows(b: Broker, c: Broker, l: nat) {
    && l in b.feeds && l in c.feeds && c.feeds[l].birth == b.feeds[l].birth && c.feeds[l].start == b.feeds[l].start
    && c.feeds[l].floor == b.feeds[l].floor && b.feeds[l].received <= c.feeds[l].received
  }

  /** Everything but the streams, the tombstones and the clock is the same. */
  ghost predicate SameHistory(b: Broker, c: Broker) {
    c.config == b.config && c.nextBirth == b.nextBirth && c.nextListener == b.nextListener && c.closed == b.closed
    && c.logs == b.logs && c.feeds == b.feeds
  }

  lemma SameIsSteady(b: Broker, c: Broker)
    requires SameHistory(b, c)
    ensures Steady(b, c)
  {
    forall birth | birth in b.logs ensures LogGrows(b, c, birth) {
    }
    forall l | l in b.feeds ensures FeedGrows(b, c, l) {
    }
  }

  lemma SteadyTransitive(b: Broker, c: Broker, d: Broker)
    requires Steady(b, c) && Steady(c, d)
    ensures Steady(b, d)
  {
    forall birth | birth in b.logs ensures LogGrows(b, d, birth) {
      assert LogGrows(b, c, birth);
      assert LogGrows(c, d, birth);
    }
    forall l | l in b.feeds ensures FeedGrows(b, d, l) {
      assert FeedGrows(b, c, l);
      assert FeedGrows(c, d, l);
    }
  }

  // ---------- the primitives keep the invariant ----------

  lemma StreamSame(b: Broker, c: Broker, id: Id)
    requires StreamOk(b, id) && SameHistory(b, c) && id in c.states && c.states[id] == b.states[id]
    ensures StreamOk(c, id)
  {
    forall l | l in c.states[id].listeners ensures ListenerOk(c, l, c.states[id].birth) {
      assert ListenerOk(b, l, c.states[id].birth);
    }
  }

  lemma UnburiedSame(b: Broker, c: Broker, id: Id)
    requires Unburied(b, id) && id in c.states && b.states[id].accountId == c.states[id].accountId && b.states[id].interviewId == c.states[id].interviewId
    requires forall grave {:trigger Buried(c, grave)} :: Buried(c, grave) ==> Buried(b, grave)
    ensures Unburied(c, id)
  {
    forall grave | Covers(grave, id, c.states[id]) ensures !Buried(c, grave) {
      assert Covers(grave, id, b.states[id]);
    }
  }

  /** Fewer streams, the same history, and no tombstone that did not hold before. */
  lemma FewerStates(b: Broker, c: Broker)
    requires Inv(b) && SameHistory(b, c)
    requires forall id :: id in c.states ==> id in b.states && c.states[id] == b.states[id]
    requires forall grave {:trigger Buried(c, grave)} :: Buried(c, grave) ==> Buried(b, grave)
    ensures Inv(c) && Steady(b, c)
  {
    SameIsSteady(b, c);
    forall id | id in c.states ensures StreamOk(c, id) && Unburied(c, id) {
      assert StreamOk(b, id) && Unburied(b, id);
      StreamSame(b, c, id);
      UnburiedSame(b, c, id);
    }
  }

  lemma DropKeeps(b: Broker, id: Id)
    requires Inv(b)
    ensures Inv(Drop(b, id)) && Steady(b, Drop(b, id))
  {
    FewerStates(b, Drop(b, id));
  }

  lemma TrimRemoves(states: map<Id, Stream>, limit: nat)
    ensures forall id :: id in TrimStates(states, limit) ==> id in states && TrimStates(states, limit)[id] == states[id]
    ensures forall id :: id in states && id !in TrimStates(states, limit) ==> states[id].events != [] && states[id].listeners == {}
  {
  }

  lemma TrimKeeps(b: Broker)
    requires Inv(b)
    ensures Inv(Trim(b)) && Steady(b, Trim(b))
    ensures forall id :: id in Trim(b).states ==> id in b.states && Trim(b).states[id] == b.states[id]
    ensures forall id :: id in b.states && (b.states[id].events == [] || b.states[id].listeners != {}) ==> id in Trim(b).states
  {
    TrimRemoves(b.states, b.config.historyOperationLimit);
    FewerStates(b, Trim(b));
  }

  /** A stream changed in place: still about the same operation, with a window and listeners that fit its log. */
  lemma PutKeeps(b: Broker, id: Id, s: Stream)
    requires Inv(b) && id in b.states && StreamOk(Put(b, id, s), id)
    requires s.accountId == b.states[id].accountId && s.interviewId == b.states[id].interviewId
    ensures Inv(Put(b, id, s)) && Steady(b, Put(b, id, s))
  {
    var c := Put(b, id, s);
    SameIsSteady(b, c);
    forall other | other in c.states ensures StreamOk(c, other) && Unburied(c, other) {
      assert StreamOk(b, other) && Unburied(b, other);
      if other != id {
        StreamSame(b, c, other);
      }
      UnburiedSame(b, c, other);
    }
  }

  /** A change of bookkeeping only: fewer listeners or a higher next number. */
  lemma Rebook(b: Broker, id: Id, s: Stream)
    requires Inv(b) && id in b.states
    requires s.birth == b.states[id].birth && s.accountId == b.states[id].accountId && s.interviewId == b.states[id].interviewId
    requires s.listeners <= b.states[id].listeners && s.nextSequence >= b.states[id].nextSequence
    requires s.events == b.states[id].events && s.historyExpiresAt == b.states[id].historyExpiresAt
    ensures Inv(Put(b, id, s)) && Steady(b, Put(b, id, s))
  {
    var c := Put(b, id, s);
    assert StreamOk(b, id);
    IncreasingUp(b.logs[s.birth].events, b.states[id].nextSequence, s.nextSequence);
    forall l | l in s.listeners ensures ListenerOk(c, l, s.birth) && c.feeds[l].floor <= s.nextSequence {
      assert ListenerOk(b, l, s.birth);
    }
    PutKeeps(b, id, s);
  }

  /** A log that got one more clearing, now. */
  lemma NotedLog(b: Broker, birth: nat, why: Clearing)
    requires birth in b.logs && LogOk(b.logs, birth) && why.at == |b.logs[birth].events| && Reasonable(b.logs[birth], why)
    ensures LogOk(Noted(b.logs, birth, why), birth) && TerminalsCleared(Noted(b.logs, birth, why)[birth])
  {
    NotedApart(b.logs[birth], why);
  }

  lemma NotedIsSteady(b: Broker, c: Broker, birth: nat, why: Clearing)
    requires c.config == b.config && c.nextBirth == b.nextBirth && c.nextListener == b.nextListener && c.closed == b.closed
    requires c.logs == Noted(b.logs, birth, why) && c.feeds == b.feeds
    ensures Steady(b, c)
  {
    forall birth | birth in b.logs ensures LogGrows(b, c, birth) {
    }
    forall l | l in b.feeds ensures FeedGrows(b, c, l) {
    }
  }

  lemma ClearedStream(b: Broker, c: Broker, id: Id, why: Clearing)
    requires StreamOk(b, id) && LogOk(b.logs, b.states[id].birth)
    requires why.at == LogSize(b, b.states[id].birth) && Reasonable(b.logs[b.states[id].birth], why)
    requires c == Put(b, id, Cleared(b.states[id])).(logs := Noted(b.logs, b.states[id].birth, why))
    ensures StreamOk(c, id)
  {
    var s := b.states[id];
    NotedLog(b, s.birth, why);
    forall l | l in c.states[id].listeners ensures ListenerOk(c, l, s.birth) {
      assert ListenerOk(b, l, s.birth);
    }
  }

  lemma ClearedOther(b: Broker, c: Broker, id: Id, other: Id, why: Clearing)
    requires StreamOk(b, id) && StreamOk(b, other) && other != id
    requires c == Put(b, id, Cleared(b.states[id])).(logs := Noted(b.logs, b.states[id].birth, why))
    ensures StreamOk(c, other)
  {
    assert b.states[other].birth != b.states[id].birth;
    OtherStream(b, c, other);
  }

  lemma ClearKeeps(b: Broker, id: Id, why: Clearing)
    requires Inv(b) && id in b.states && !b.closed
    requires why.at == LogSize(b, b.states[id].birth) && if why.Expiry? then why.expiresAt <= why.now else why.from < why.to
    ensures Inv(ClearHistory(b, id, why)) && Steady(b, ClearHistory(b, id, why))
  {
    var c := ClearHistory(b, id, why);
    var birth := b.states[id].birth;
    assert StreamOk(b, id) && LogOk(b.logs, birth);
    NotedIsSteady(b, c, birth, why);
    NotedLog(b, birth, why);
    ClearedStream(b, c, id, why);
    forall other | other in c.states ensures StreamOk(c, other) && Unburied(c, other) {
      assert StreamOk(b, other) && Unburied(b, other);
      if other != id {
        ClearedOther(b, c, id, other, why);
      }
      UnburiedSame(b, c, other);
    }
    forall other | other in c.logs ensures LogOk(c.logs, other) {
      assert LogOk(b.logs, other);
    }
  }

  lemma NoneWhenClosed(b: Broker, id: Id)
    requires Inv(b) && id in b.states
    ensures !b.closed
  {
  }

  lemma ExpireKeeps(b: Broker, id: Id)
    requires Inv(b)
    ensures Inv(ExpireHistory(b, id)) && Steady(b, ExpireHistory(b, id))
  {
    SameIsSteady(b, b);
    if HasExpired(b, id) {
      NoneWhenClosed(b, id);
      ClearKeeps(b, id, ExpiryNow(b, id));
    }
    DropKeeps(b, id);
  }

  lemma SyncKeeps(b: Broker, op: Operation)
    requires Inv(b)
    ensures Inv(SyncAttempt(b, op)) && Steady(b, SyncAttempt(b, op))
  {
    SameIsSteady(b, b);
    if op.id in b.states && op.attemptCount > b.states[op.id].attemptCount {
      var c := Put(b, op.id, b.states[op.id].(attemptCount := op.attemptCount));
      var why := LaterAttempt(LogSize(b, b.states[op.id].birth), b.states[op.id].attemptCount, op.attemptCount);
      NoneWhenClosed(b, op.id);
      Rebook(b, op.id, b.states[op.id].(attemptCount := op.attemptCount));
      ClearKeeps(c, op.id, why);
      SteadyTransitive(b, c, ClearHistory(c, op.id, why));
    }
  }

  /** Looking at tombstones changes nothing that can be observed. */
  ghost predicate Looked(b: Broker, c: Broker) {
    && Inv(c) && Steady(b, c) && c.states == b.states && c.now == b.now && c.closed == b.closed
    && (forall grave {:trigger Buried(c, grave)} :: Buried(c, grave) <==> Buried(b, grave))
  }

  lemma LookAtKeeps(b: Broker, grave: Grave)
    requires Inv(b)
    ensures Looked(b, LookAt(b, grave))
  {
    FewerStates(b, LookAt(b, grave));
  }

  lemma LookedTwice(b: Broker, c: Broker, grave: Grave)
    requires Looked(b, c)
    ensures Looked(b, LookAt(c, grave))
  {
    LookAtKeeps(c, grave);
    SteadyTransitive(b, c, LookAt(c, grave));
  }

  lemma CheckKeeps(b: Broker, op: Operation)
    requires Inv(b)
    ensures Looked(b, AfterErasedCheck(b, op))
  {
    var first := LookAt(b, OperationGrave(op.id));
    LookAtKeeps(b, OperationGrave(op.id));
    LookedTwice(b, first, AccountGrave(op.accountId));
    LookedTwice(b, LookAt(first, AccountGrave(op.accountId)), InterviewGrave(op.accountId, op.interviewId));
  }

  /** A new stream for an operation that is not erased. */
  lemma BirthKeeps(b: Broker, op: Operation, continuityUnknown: bool)
    requires Inv(b) && !b.closed && !IsErased(b, op)
    ensures var c := Born(b, op, continuityUnknown);
            Inv(c) && Steady(b, c)
  {
    var c := Born(b, op, continuityUnknown);
    forall birth | birth in b.logs ensures LogGrows(b, c, birth) {
    }
    forall l | l in b.feeds ensures FeedGrows(b, c, l) {
    }
    forall id | id in c.states ensures StreamOk(c, id) && Unburied(c, id) {
      if id == op.id {
        forall grave | Covers(grave, id, c.states[id]) ensures !Buried(c, grave) {
          assert Buried(c, grave) <==> Buried(b, grave);
        }
      } else {
        assert StreamOk(b, id) && Unburied(b, id);
        OtherStream(b, c, id);
        forall grave | Covers(grave, id, c.states[id]) ensures !Buried(c, grave) {
          assert Buried(c, grave) <==> Buried(b, grave);
          assert Covers(grave, id, b.states[id]);
        }
      }
    }
    forall birth | birth in c.logs ensures LogOk(c.logs, birth) {
      assert birth in b.logs ==> LogOk(b.logs, birth);
    }
  }

  /** A stream whose own log and feeds did not change. */
  lemma OtherStream(b: Broker, c: Broker, id: Id)
    requires StreamOk(b, id) && id in c.states && c.states[id] == b.states[id] && c.config == b.config
    requires c.nextBirth >= b.nextBirth && c.nextListener >= b.nextListener
    requires b.states[id].birth in c.logs && c.logs[b.states[id].birth] == b.logs[b.states[id].birth]
    requires forall birth :: birth in c.logs && c.logs[birth].owner == id ==> birth in b.logs && b.logs[birth].owner == id
    requires forall l :: l in b.states[id].listeners ==> l in c.feeds && c.feeds[l] == b.feeds[l]
    ensures StreamOk(c, id)
  {
    forall l | l in c.states[id].listeners ensures ListenerOk(c, l, c.states[id].birth) {
      assert ListenerOk(b, l, c.states[id].birth);
    }
  }

  lemma CreateKeeps(b: Broker, op: Operation, continuityUnknown: bool)
    requires Inv(b) && !IsErased(b, op)
    ensures Inv(CreateState(b, op, continuityUnknown)) && Steady(b, CreateState(b, op, continuityUnknown))
    ensures b.closed || op.id in CreateState(b, op, continuityUnknown).states
  {
    SameIsSteady(b, b);
    if !b.closed {
      var c := Born(b, op, continuityUnknown);
      BirthKeeps(b, op, continuityUnknown);
      TrimAfter(b, c, op.id);
    }
  }

  lemma TrimAfter(b: Broker, c: Broker, id: Id)
    requires Inv(c) && Steady(b, c) && id in c.states && c.states[id].events == []
    ensures Inv(Trim(c)) && Steady(b, Trim(c)) && id in Trim(c).states
  {
    TrimKeeps(c);
    SteadyTransitive(b, c, Trim(c));
  }

  /** A step keeps the invariant and the history. */
  ghost predicate Kept(b: Broker, c: Broker) {
    Inv(c) && Steady(b, c)
  }

  lemma KeptTwice(b: Broker, c: Broker, d: Broker)
    requires Kept(b, c) && Kept(c, d)
    ensures Kept(b, d)
  {
    SteadyTransitive(b, c, d);
  }

  lemma Unchanged(b: Broker)
    requires Inv(b)
    ensures Kept(b, b)
  {
    SameIsSteady(b, b);
  }

  lemma FoundKeeps(b: Broker, op: Operation, continuityUnknown: bool)
    requires Inv(b) && op.id in b.states
    ensures Kept(b, Found(b, op, continuityUnknown))
  {
    var s := b.states[op.id];
    var c := Put(b, op.id, s.(continuityUnknown := s.continuityUnknown || continuityUnknown, touchedAt := b.now));
    Rebook(b, op.id, s.(continuityUnknown := s.continuityUnknown || continuityUnknown, touchedAt := b.now));
    FewerStates(c, Found(b, op, continuityUnknown));
    KeptTwice(b, c, Found(b, op, continuityUnknown));
  }

  lemma ReplaceKeeps(b: Broker, op: Operation, continuityUnknown: bool)
    requires Inv(b) && !IsErased(b, op)
    ensures Kept(b, CreateState(Drop(b, op.id), op, continuityUnknown))
    ensures b.closed || op.id in CreateState(Drop(b, op.id), op, continuityUnknown).states
  {
    DropKeeps(b, op.id);
    CreateKeeps(Drop(b, op.id), op, continuityUnknown);
    KeptTwice(b, Drop(b, op.id), CreateState(Drop(b, op.id), op, continuityUnknown));
  }

  lemma OpenKeeps(b: Broker, op: Operation, continuityUnknown: bool)
    requires Inv(b) && !IsErased(b, op)
    ensures Kept(b, OpenState(b, op, continuityUnknown))
    ensures b.closed || op.id in OpenState(b, op, continuityUnknown).states
  {
    var e := ExpireHistory(b, op.id);
    ExpireKeeps(b, op.id);
    if op.id in e.states && SameTarget(e.states[op.id], op) {
      FoundKeeps(e, op, continuityUnknown);
    } else {
      ReplaceKeeps(e, op, continuityUnknown);
    }
    KeptTwice(b, e, OpenState(b, op, continuityUnknown));
  }

  /** Afterwards the operation has a stream exactly when it is not erased and the broker is open. */
  lemma FindKeeps(b: Broker, op: Operation, continuityUnknown: bool)
    requires Inv(b)
    ensures Kept(b, FindState(b, op, continuityUnknown))
    ensures op.id in FindState(b, op, continuityUnknown).states <==> !b.closed && !IsErased(b, op)
  {
    var looked := AfterErasedCheck(b, op);
    CheckKeeps(b, op);
    if IsErased(b, op) {
      DropKeeps(looked, op.id);
      KeptTwice(b, looked, Drop(looked, op.id));
    } else {
      assert !IsErased(looked, op);
      OpenKeeps(looked, op, continuityUnknown);
      KeptTwice(b, looked, OpenState(looked, op, continuityUnknown));
    }
  }

  lemma BeginKeeps(b: Broker, op: Operation)
    requires Inv(b)
    ensures Kept(b, BeginAttempt(b, op))
  {
    Unchanged(b);
    var e := ExpireHistory(b, op.id);
    ExpireKeeps(b, op.id);
    DropKeeps(e, op.id);
    SyncKeeps(e, op);
    KeptTwice(b, e, Drop(e, op.id));
    KeptTwice(b, e, SyncAttempt(e, op));
  }

  lemma TakeKeeps(b: Broker, id: Id, n: nat)
    requires Inv(b)
    ensures Kept(b, TakeNumbers(b, id, n))
  {
    DropKeeps(b, id);
    if HasNumbers(b, id, n) {
      Rebook(b, id, b.states[id].(nextSequence := b.states[id].nextSequence + n));
    }
  }

  /** The event may be pushed on the stream: its number is above the log's and below the next one. */
  ghost predicate MayPush(b: Broker, id: Id, e: StreamEvent) {
    && id in b.states && b.states[id].birth in b.logs && TerminalOf(b.states[id].events).None?
    && Increasing(b.logs[b.states[id].birth].events, e.sequence) && e.sequence < b.states[id].nextSequence
    && (forall l :: l in b.states[id].listeners && l in b.feeds ==> b.feeds[l].floor <= e.sequence)
  }

  /** Pushing an event whose number was taken: it joins the log, the window and the feeds. */
  lemma PushKeeps(b: Broker, id: Id, e: StreamEvent, failing: set<nat>)
    requires Inv(b) && MayPush(b, id, e)
    ensures Kept(b, Extended(b, id, e, failing))
  {
    var c := Extended(b, id, e, failing);
    PushIsSteady(b, c, id, e);
    forall other | other in c.states ensures StreamOk(c, other) && Unburied(c, other) {
      assert StreamOk(b, other) && Unburied(b, other) && StreamOk(b, id);
      if other != id {
        SpectatorStream(b, c, id, other, e);
      } else {
        PushedStream(b, c, id, e, failing);
      }
      UnburiedSame(b, c, other);
    }
    PushedLogs(b, id, e, failing);
  }

  lemma PushedLogs(b: Broker, id: Id, e: StreamEvent, failing: set<nat>)
    requires Inv(b) && MayPush(b, id, e)
    ensures forall birth {:trigger LogOk(Extended(b, id, e, failing).logs, birth)} ::
              birth in Extended(b, id, e, failing).logs ==> LogOk(Extended(b, id, e, failing).logs, birth)
  {
    var c := Extended(b, id, e, failing);
    assert StreamOk(b, id);
    forall birth | birth in c.logs ensures LogOk(c.logs, birth) {
      assert LogOk(b.logs, birth);
      if birth == b.states[id].birth {
        PushedApart(b.logs[birth], e);
      }
    }
  }

  lemma PushIsSteady(b: Broker, c: Broker, id: Id, e: StreamEvent)
    requires Inv(b) && id in b.states && c.config == b.config && c.nextBirth == b.nextBirth && c.nextListener == b.nextListener && c.closed == b.closed
    requires c.logs == Logged(b.logs, b.states[id].birth, e) && c.feeds == Sent(b.feeds, b.states[id].listeners, e)
    ensures Steady(b, c)
  {
    forall birth | birth in b.logs ensures LogGrows(b, c, birth) {
    }
    forall l | l in b.feeds ensures FeedGrows(b, c, l) {
    }
  }

  lemma FeedSent(b: Broker, c: Broker, l: nat, birth: nat, e: StreamEvent, listeners: set<nat>)
    requires ListenerOk(b, l, birth) && l in listeners && b.feeds[l].floor <= e.sequence
    requires c.logs == Logged(b.logs, birth, e) && c.feeds == Sent(b.feeds, listeners, e) && c.nextListener == b.nextListener
    ensures ListenerOk(c, l, birth)
  {
    var log, start := b.logs[birth].events, b.feeds[l].start;
    assert (log + [e])[start..] == log[start..] + [e];
  }

  lemma PushedWindow(events: seq<StreamEvent>, e: StreamEvent, limit: nat)
    requires TerminalOf(events).None? && limit >= 1
    ensures OneTerminal(LastOf(events + [e], limit)) && |LastOf(events + [e], limit)| <= limit && LastOf(events + [e], limit) != []
    ensures TerminalOf(LastOf(events + [e], limit)).None? ==> e.TextDelta?
  {
    TerminalSnoc(events, e, limit);
    var window := LastOf(events + [e], limit);
    assert window[|window| - 1] == e;
  }

  lemma PushedListeners(b: Broker, c: Broker, id: Id, e: StreamEvent, failing: set<nat>)
    requires StreamOk(b, id) && MayPush(b, id, e) && c == Extended(b, id, e, failing)
    ensures forall l :: l in c.states[id].listeners ==> ListenerOk(c, l, b.states[id].birth) && c.feeds[l].floor <= c.states[id].nextSequence
  {
    var s := b.states[id];
    forall l | l in c.states[id].listeners ensures ListenerOk(c, l, s.birth) && c.feeds[l].floor <= s.nextSequence {
      assert ListenerOk(b, l, s.birth);
      FeedSent(b, c, l, s.birth, e, s.listeners);
    }
  }

  lemma PushedStream(b: Broker, c: Broker, id: Id, e: StreamEvent, failing: set<nat>)
    requires StreamOk(b, id) && ValidConfig(b.config) && MayPush(b, id, e) && LogOk(b.logs, b.states[id].birth)
    requires c == Extended(b, id, e, failing)
    ensures StreamOk(c, id)
  {
    PushedListeners(b, c, id, e, failing);
    PushedEvents(b.states[id], b.logs[b.states[id].birth], e, b.config.historyLimit);
    PushedOwners(b.logs, id, b.states[id].birth, e);
  }

  /** No log changes hands. */
  lemma PushedOwners(logs: map<nat, Log>, id: Id, birth: nat, e: StreamEvent)
    requires birth in logs && logs[birth].owner == id && forall other :: other in logs && logs[other].owner == id ==> other <= birth
    ensures var after := Logged(logs, birth, e);
            after[birth].owner == id && forall other :: other in after && after[other].owner == id ==> other <= birth
  {
  }

  /** The window and the log after pushing. */
  lemma PushedEvents(s: Stream, log: Log, e: StreamEvent, limit: nat)
    requires IsSuffix(s.events, log.events) && TerminalOf(s.events).None? && TerminalsCleared(log) && TerminalsApart(log)
    requires Increasing(log.events, e.sequence) && e.sequence < s.nextSequence && limit >= 1
    ensures var window, after := LastOf(s.events + [e], limit), log.(events := log.events + [e]);
            && Increasing(after.events, s.nextSequence) && IsSuffix(window, after.events)
            && |window| <= limit && window != [] && OneTerminal(window)
            && (TerminalOf(window).None? ==> TerminalsCleared(after))
  {
    IncreasingSnoc(log.events, e, s.nextSequence);
    SuffixSnoc(s.events, log.events, e, limit);
    PushedWindow(s.events, e, limit);
    PushedApart(log, e);
  }

  /** Another stream has another birth and other listeners, so it does not notice. */
  lemma SpectatorStream(b: Broker, c: Broker, id: Id, other: Id, e: StreamEvent)
    requires StreamOk(b, id) && StreamOk(b, other) && other != id
    requires other in c.states && c.states[other] == b.states[other] && c.config == b.config
    requires c.nextBirth == b.nextBirth && c.nextListener == b.nextListener
    requires c.logs == Logged(b.logs, b.states[id].birth, e) && c.feeds == Sent(b.feeds, b.states[id].listeners, e)
    ensures StreamOk(c, other)
  {
    assert b.states[other].birth != b.states[id].birth;
    forall l | l in b.states[other].listeners ensures l in c.feeds && c.feeds[l] == b.feeds[l] {
      assert ListenerOk(b, l, b.states[other].birth);
      assert l !in b.states[id].listeners;
    }
    OtherStream(b, c, other);
  }

  // ---------- publishing ----------

  lemma PublishKeeps(b: Broker, id: Id, birth: nat, e: StreamEvent, failing: set<nat>)
    requires Inv(b) && (id in b.states && b.states[id].birth == birth ==> MayPush(b, id, e))
    ensures Kept(b, Publish(b, id, birth, e, failing))
  {
    if id !in b.states || b.states[id].birth != birth {
      TrimKeeps(b);
    } else {
      var s := b.states[id];
      var c := Extended(b, id, e, failing);
      PushKeeps(b, id, e, failing);
      TrimKeeps(c);
      KeptTwice(b, c, Trim(c));
    }
  }

  lemma {:induction false} NoTerminalSnoc(events: seq<StreamEvent>, e: StreamEvent, limit: nat)
    requires TerminalOf(events).None? && e.TextDelta?
    ensures TerminalOf(LastOf(events + [e], limit)).None?
  {
    var all := events + [e];
    assert all[..|events|] == events;
    if |all| > limit {
      NoTerminalSuffix(all, |all| - limit);
    }
  }

  /** The events may be pushed one after the other: consecutive taken numbers, and only the last one terminal. */
  ghost predicate MayPushAll(b: Broker, id: Id, birth: nat, events: seq<StreamEvent>) {
    && (events != [] && id in b.states && b.states[id].birth == birth ==>
          MayPush(b, id, events[0]) && events[|events| - 1].sequence < b.states[id].nextSequence)
    && (forall k {:trigger events[k]} :: 0 <= k < |events| ==>
          events[k].sequence == events[0].sequence + k && (k < |events| - 1 ==> events[k].TextDelta?))
  }

  /** After a text event, the next number may still be pushed, if the stream is still there. */
  lemma MayPushNext(b: Broker, id: Id, t: StreamEvent, e: StreamEvent, failing: set<nat>)
    requires Inv(b) && MayPush(b, id, t) && t.TextDelta? && e.sequence == t.sequence + 1 < b.states[id].nextSequence
    ensures var c := Publish(b, id, b.states[id].birth, t, failing);
            id in c.states && c.states[id].birth == b.states[id].birth ==> MayPush(c, id, e)
  {
    var s := b.states[id];
    var d := Extended(b, id, t, failing);
    var c := Publish(b, id, s.birth, t, failing);
    PushKeeps(b, id, t, failing);
    TrimKeeps(d);
    if id in c.states {
      assert c == Trim(d) && c.states[id] == d.states[id];
      NoTerminalSnoc(s.events, t, b.config.historyLimit);
      IncreasingSnoc(b.logs[s.birth].events, t, e.sequence);
    }
  }

  lemma MayPushRest(b: Broker, id: Id, birth: nat, events: seq<StreamEvent>, failing: set<nat>)
    requires Inv(b) && events != [] && MayPushAll(b, id, birth, events)
    ensures MayPushAll(Publish(b, id, birth, events[0], failing), id, birth, events[1..])
  {
    var c, rest := Publish(b, id, birth, events[0], failing), events[1..];
    TrimKeeps(b);
    if rest != [] && id in b.states && b.states[id].birth == birth {
      MayPushNext(b, id, events[0], events[1], failing);
      PushKeeps(b, id, events[0], failing);
      TrimKeeps(Extended(b, id, events[0], failing));
      assert c == Trim(Extended(b, id, events[0], failing));
    }
  }

  lemma {:induction false} PublishAllKeeps(b: Broker, id: Id, birth: nat, events: seq<StreamEvent>, failing: set<nat>)
    requires Inv(b) && MayPushAll(b, id, birth, events)
    ensures Kept(b, PublishAll(b, id, birth, events, failing))
    decreases |events|
  {
    Unchanged(b);
    if events != [] {
      var c := Publish(b, id, birth, events[0], failing);
      PublishKeeps(b, id, birth, events[0], failing);
      MayPushRest(b, id, birth, events, failing);
      PublishAllKeeps(c, id, birth, events[1..], failing);
      KeptTwice(b, c, PublishAll(c, id, birth, events[1..], failing));
    }
  }

  /** Taken numbers may be pushed. */
  lemma TakenMayPush(b: Broker, op: Operation, m: Message)
    requires Inv(b) && HasNumbers(b, op.id, Numbers(m)) && TerminalOf(b.states[op.id].events).None?
    ensures MayPushAll(TakeNumbers(b, op.id, Numbers(m)), op.id, b.states[op.id].birth, EventsOf(op, m, b.states[op.id].nextSequence))
  {
    assert StreamOk(b, op.id);
  }

  lemma EmitKeeps(r: Broker, op: Operation, m: Message, failing: set<nat>)
    requires Inv(r)
    ensures Kept(r, Emit(r, op, m, failing).0)
  {
    Unchanged(r);
    var taken := TakeNumbers(r, op.id, Numbers(m));
    TakeKeeps(r, op.id, Numbers(m));
    if HasNumbers(r, op.id, Numbers(m)) && TerminalOf(r.states[op.id].events).None? {
      var birth, events := r.states[op.id].birth, EventsOf(op, m, r.states[op.id].nextSequence);
      TakenMayPush(r, op, m);
      PublishAllKeeps(taken, op.id, birth, events, failing);
      KeptTwice(r, taken, PublishAll(taken, op.id, birth, events, failing));
    }
  }

  lemma ReadyKeeps(b: Broker, op: Operation, continuityUnknown: bool)
    requires Inv(b)
    ensures Kept(b, Ready(b, op, continuityUnknown)) && Kept(b, FindState(b, op, continuityUnknown))
  {
    FindKeeps(b, op, continuityUnknown);
    SyncKeeps(FindState(b, op, continuityUnknown), op);
    KeptTwice(b, FindState(b, op, continuityUnknown), Ready(b, op, continuityUnknown));
  }

  lemma SendKeeps(b: Broker, op: Operation, m: Message, continuityUnknown: bool, failing: set<nat>)
    requires Inv(b)
    ensures Kept(b, Send(b, op, m, continuityUnknown, failing).0)
  {
    Unchanged(b);
    ReadyKeeps(b, op, continuityUnknown);
    var r := Ready(b, op, continuityUnknown);
    EmitKeeps(r, op, m, failing);
    KeptTwice(b, r, Emit(r, op, m, failing).0);
  }

  // ---------- subscribing, timers, erasing ----------

  lemma JoinedOther(b: Broker, c: Broker, id: Id, other: Id)
    requires Inv(b) && id in b.states && other in b.states && other != id && c == Join(b, id)
    ensures StreamOk(c, other)
  {
    assert StreamOk(b, other);
    forall l | l in b.states[other].listeners ensures l in c.feeds && c.feeds[l] == b.feeds[l] {
      assert ListenerOk(b, l, b.states[other].birth);
    }
    OtherStream(b, c, other);
  }

  lemma JoinedStream(b: Broker, c: Broker, id: Id)
    requires Inv(b) && id in b.states && c == Join(b, id)
    ensures StreamOk(c, id)
  {
    var s := b.states[id];
    assert StreamOk(b, id);
    forall l | l in c.states[id].listeners ensures ListenerOk(c, l, s.birth) && c.feeds[l].floor <= s.nextSequence {
      assert l != b.nextListener ==> ListenerOk(b, l, s.birth);
    }
  }

  lemma JoinKeeps(b: Broker, id: Id)
    requires Inv(b) && id in b.states
    ensures Kept(b, Join(b, id))
  {
    var c := Join(b, id);
    forall birth | birth in b.logs ensures LogGrows(b, c, birth) {
    }
    forall l | l in b.feeds ensures FeedGrows(b, c, l) {
    }
    JoinedStream(b, c, id);
    forall other | other in c.states ensures StreamOk(c, other) && Unburied(c, other) {
      assert Unburied(b, other);
      UnburiedSame(b, c, other);
      if other != id {
        JoinedOther(b, c, id, other);
      }
    }
  }

  lemma AttachKeeps(f: Broker, op: Operation, lastSequence: int, allowTruncatedStart: bool)
    requires Inv(f)
    ensures Kept(f, Attach(f, op, lastSequence, allowTruncatedStart).0)
  {
    Unchanged(f);
    var r := SyncAttempt(f, op);
    SyncKeeps(f, op);
    if op.id in r.states {
      JoinKeeps(r, op.id);
      KeptTwice(f, r, Join(r, op.id));
    }
  }

  lemma MarkedCovers(b: Broker, grave: Grave)
    requires Inv(b)
    ensures Kept(b, Erase(b, grave))
    ensures forall id :: id in Erase(b, grave).states ==> !Covers(grave, id, b.states[id])
  {
    var c := Erase(b, grave);
    SameIsSteady(b, c);
    forall id | id in c.states ensures StreamOk(c, id) && Unburied(c, id) {
      assert StreamOk(b, id) && Unburied(b, id);
      StreamSame(b, c, id);
      forall g | Covers(g, id, c.states[id]) ensures !Buried(c, g) {
        assert Covers(g, id, b.states[id]);
        assert g != grave ==> (Buried(c, g) <==> Buried(b, g));
      }
    }
  }

  lemma TargetKeeps(b: Broker, op: Operation)
    requires Inv(b)
    ensures Kept(b, SubscribeTarget(b, op))
  {
    var e := ExpireHistory(b, op.id);
    ExpireKeeps(b, op.id);
    MarkedCovers(e, OperationGrave(op.id));
    KeptTwice(b, e, Erase(e, OperationGrave(op.id)));
  }

  lemma SubscribeOnKeeps(target: Broker, op: Operation, lastSequence: int, allowTruncatedStart: bool)
    requires Inv(target)
    ensures Kept(target, SubscribeOn(target, op, lastSequence, allowTruncatedStart).0)
  {
    Unchanged(target);
    AttachKeeps(target, op, lastSequence, allowTruncatedStart);
    var f := FindState(target, op, false);
    FindKeeps(target, op, false);
    AttachKeeps(f, op, lastSequence, allowTruncatedStart);
    KeptTwice(target, f, Attach(f, op, lastSequence, allowTruncatedStart).0);
  }

  lemma SubscribeKeeps(b: Broker, op: Operation, lastSequence: int, allowTruncatedStart: bool)
    requires Inv(b)
    ensures Kept(b, Subscribe(b, op, lastSequence, allowTruncatedStart).0)
  {
    var looked := AfterErasedCheck(b, op);
    CheckKeeps(b, op);
    if !IsErased(b, op) {
      var target := SubscribeTarget(looked, op);
      TargetKeeps(looked, op);
      KeptTwice(b, looked, target);
      SubscribeOnKeeps(target, op, lastSequence, allowTruncatedStart);
      KeptTwice(b, target, SubscribeOn(target, op, lastSequence, allowTruncatedStart).0);
    }
  }

  lemma LeftKeeps(b: Broker, id: Id, birth: nat, listener: nat)
    requires Inv(b)
    ensures Kept(b, Left(b, id, birth, listener))
  {
    Unchanged(b);
    DropKeeps(b, id);
    if id in b.states {
      Rebook(b, id, b.states[id].(listeners := b.states[id].listeners - {listener}));
    }
  }

  lemma UnsubscribeKeeps(b: Broker, id: Id, birth: nat, listener: nat)
    requires Inv(b)
    ensures Kept(b, Unsubscribe(b, id, birth, listener))
  {
    var c := Left(b, id, birth, listener);
    LeftKeeps(b, id, birth, listener);
    TrimKeeps(c);
    KeptTwice(b, c, Trim(c));
  }

  lemma RetimedKeeps(b: Broker, id: Id, timer: Option<int>)
    requires Inv(b) && id in b.states
    ensures Kept(b, Put(b, id, b.states[id].(historyTimer := timer)))
  {
    Rebook(b, id, b.states[id].(historyTimer := timer));
  }

  lemma HistoryTimerKeeps(b: Broker, id: Id)
    requires Inv(b)
    ensures Kept(b, HistoryTimerFires(b, id))
  {
    Unchanged(b);
    if id in b.states && b.states[id].historyTimer.Some? {
      var s := b.states[id].(historyTimer := None);
      RetimedKeeps(b, id, None);
      if s.historyExpiresAt.Some? && s.historyExpiresAt.value > b.now {
        RetimedKeeps(b, id, Some(b.now + Least(Greatest(1, s.historyExpiresAt.value - b.now), MAX_TIMER_DELAY)));
      } else if s.historyExpiresAt.Some? {
        ExpireKeeps(Put(b, id, s), id);
        KeptTwice(b, Put(b, id, s), ExpireHistory(Put(b, id, s), id));
      }
    }
  }

  /** After its history timer fired, a stream is not expired, and a timer is pending as long as it has history. */
  lemma HistoryTimerFollowsUp(b: Broker, id: Id)
    requires Inv(b) && id in b.states && b.states[id].historyTimer.Some?
    ensures var c := HistoryTimerFires(b, id);
            id in c.states ==>
              && !HasExpired(c, id)
              && (c.states[id].historyExpiresAt.Some? ==> c.states[id].historyTimer.Some? && c.states[id].historyTimer.value > c.now)
  {
    NoneWhenClosed(b, id);
  }

  lemma TombstoneTimerKeeps(b: Broker, t: TombstoneTimer)
    requires Inv(b)
    ensures Kept(b, TombstoneTimerFires(b, t))
  {
    FewerStates(b, TombstoneTimerFires(b, t));
  }

  lemma TickKeeps(b: Broker, now: int)
    requires Inv(b) && now >= b.now
    ensures Kept(b, b.(now := now))
  {
    FewerStates(b, b.(now := now));
  }

  lemma CloseKeeps(b: Broker)
    requires Inv(b)
    ensures Kept(b, Close(b))
  {
    Unchanged(b);
    forall birth | birth in b.logs ensures LogGrows(b, Close(b), birth) {
    }
    forall l | l in b.feeds ensures FeedGrows(b, Close(b), l) {
    }
  }
}
