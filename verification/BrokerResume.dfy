/** Resuming across streams, and terminal events over the life of a stream. */
module BrokerResume {
  import opened Sequences
  import opened InterviewModel
  import opened BrokerModel
  import opened BrokerInvariant
  import opened BrokerRuns
  import opened BrokerGaps

  // ---------- what a resumed subscription replays ----------

  lemma TailIsAbove(log: seq<StreamEvent>, last: nat)
    requires Increasing(log, |log| + 1) && last <= |log|
    ensures forall e :: e in log[last..] ==> e.sequence > last
  {
    forall e | e in log[last..] ensures e.sequence > last {
      var k :| 0 <= k < |log[last..]| && log[last..][k] == e;
      Numbered(log, last + k);
    }
  }

  lemma TailAfter(log: seq<StreamEvent>, last: nat)
    requires Increasing(log, |log| + 1) && last <= |log|
    ensures Filter(After(last), log) == log[last..]
  {
    assert log == log[..last] + log[last..];
    FilterAppend(After(last), log[..last], log[last..]);
    TailIsAbove(log, last);
    AllAfter(log[last..], last);
    if last < |log| {
      Numbered(log, last);
      IncreasingPrefix(log, last, |log| + 1);
    } else {
      assert log[..last] == log;
    }
    NoneAfter(log[..last], last, last + 1);
  }

  lemma AttachedNumbers(f: Broker, op: Operation, last: int)
    requires Inv(f) && GapFree(f) && Attach(f, op, last, false).1.Some?
    ensures var (c, found) := Attach(f, op, last, false);
            && op.id in c.states && found.value.birth == c.states[op.id].birth && found.value.birth in c.logs
            && last <= |c.logs[found.value.birth].events|
            && Increasing(c.logs[found.value.birth].events, |c.logs[found.value.birth].events| + 1)
  {
    var c := Attach(f, op, last, false).0;
    AttachKeeps(f, op, last, false);
    AttachGapFree(f, op, last, false);
    assert StreamOk(c, op.id) && Ahead(c, op.id, 0);
  }

  lemma SubscribeAttachesGapFree(b: Broker, op: Operation, last: int) returns (f: Broker)
    requires Inv(b) && GapFree(b) && Subscribe(b, op, last, false).1.Some?
    ensures Inv(f) && GapFree(f) && Subscribe(b, op, last, false) == Attach(f, op, last, false)
  {
    var looked := AfterErasedCheck(b, op);
    CheckKeeps(b, op);
    CheckCalm(b, op);
    CalmKeeps(b, looked);
    var target := SubscribeTarget(looked, op);
    TargetKeeps(looked, op);
    TargetGapFree(looked, op);
    FindKeeps(target, op, false);
    FindGapFree(target, op, false);
    f := if op.id in target.states then target else FindState(target, op, false);
  }

  /** Without mapping failures, a subscription after number `last` replays exactly the log of the stream it
      joins from position `last` on. */
  lemma ReplayIsLogTail(b: Broker, op: Operation, last: nat)
    requires Inv(b) && GapFree(b) && Subscribe(b, op, last, false).1.Some?
    ensures var (c, found) := Subscribe(b, op, last, false);
            && op.id in c.states && c.states[op.id].birth == found.value.birth && found.value.birth in c.logs
            && last <= |c.logs[found.value.birth].events|
            && found.value.replay == c.logs[found.value.birth].events[last..]
            && Increasing(c.logs[found.value.birth].events, |c.logs[found.value.birth].events| + 1)
  {
    var f := SubscribeAttachesGapFree(b, op, last);
    AttachFacts(f, op, last, false);
    AttachedNumbers(f, op, last);
    TailAfter(Attach(f, op, last, false).0.logs[Attach(f, op, last, false).1.value.birth].events, last);
  }

  // ---------- resuming on a later stream ----------

  /** Everything published on the later streams of an operation, oldest stream first. */
  function Later(logs: map<nat, Log>, id: Id, from: nat, upto: nat): seq<StreamEvent> {
    if upto <= from then []
    else
      Later(logs, id, from, upto - 1)
      + if upto - 1 in logs && logs[upto - 1].owner == id then logs[upto - 1].events else []
  }

  /** What a client that holds number `last` of the stream of that birth was not sent: the rest of that
      stream, and all of the operation's later streams. */
  function Unseen(c: Broker, id: Id, birth: nat, last: int): seq<StreamEvent>
    requires birth in c.logs
  {
    Filter(After(last), c.logs[birth].events) + Later(c.logs, id, birth + 1, c.nextBirth)
  }

  lemma {:induction false} LaterHolds(logs: map<nat, Log>, id: Id, from: nat, upto: nat, birth: nat)
    requires from <= birth < upto && birth in logs && logs[birth].owner == id
    ensures |Later(logs, id, from, upto)| >= |logs[birth].events|
  {
    if birth < upto - 1 {
      LaterHolds(logs, id, from, upto - 1, birth);
    }
  }

  lemma {:induction false} LaterNothing(logs: map<nat, Log>, id: Id, from: nat, upto: nat)
    requires forall birth :: birth in logs && logs[birth].owner == id ==> birth < from
    ensures Later(logs, id, from, upto) == []
  {
    if upto > from {
      LaterNothing(logs, id, from, upto - 1);
    }
  }

  /** Resuming is exact if and only if the stream is still the same: when a client that holds number `last`
      of the stream of birth `birth` resumes and is accepted, it is replayed exactly what it was not sent
      when it joins the stream of that birth, and misses events when it joins a later one. */
  lemma ResumeIsExactIffSameStream(b: Broker, op: Operation, birth: nat, last: nat)
    requires Inv(b) && GapFree(b) && last > 0
    requires birth in b.logs && b.logs[birth].owner == op.id
    requires Subscribe(b, op, last, false).1.Some?
    ensures var (c, found) := Subscribe(b, op, last, false);
            birth in c.logs && (found.value.replay == Unseen(c, op.id, birth, last) <==> found.value.birth == birth)
  {
    var (c, found) := Subscribe(b, op, last, false);
    SubscribeKeeps(b, op, last, false);
    assert LogGrows(b, c, birth);
    ReplayIsLogTail(b, op, last);
    UnseenUnlessSame(c, op.id, birth, last, found.value.replay);
  }

  /** The tail of the current stream is all that was not sent exactly when the client knows that stream. */
  lemma UnseenUnlessSame(c: Broker, id: Id, birth: nat, last: nat, replay: seq<StreamEvent>)
    requires Inv(c) && id in c.states && birth in c.logs && c.logs[birth].owner == id && last > 0
    requires c.states[id].birth in c.logs && last <= |c.logs[c.states[id].birth].events|
    requires replay == c.logs[c.states[id].birth].events[last..]
    requires Increasing(c.logs[c.states[id].birth].events, |c.logs[c.states[id].birth].events| + 1)
    ensures replay == Unseen(c, id, birth, last) <==> c.states[id].birth == birth
  {
    assert StreamOk(c, id);
    var joined := c.states[id].birth;
    if joined == birth {
      LaterNothing(c.logs, id, birth + 1, c.nextBirth);
      TailAfter(c.logs[birth].events, last);
    } else {
      LaterHolds(c.logs, id, birth + 1, c.nextBirth, joined);
    }
  }

  /** For every reachable broker without mapping failures. */
  lemma EveryResumeIsExactIffSameStream(config: Config, now: int, steps: seq<Step>, op: Operation, birth: nat, last: nat)
    requires ValidConfig(config) && NeverFails(config) && Possible(Fresh(config, now), steps) && last > 0
    requires var b := Run(Fresh(config, now), steps);
             birth in b.logs && b.logs[birth].owner == op.id && Subscribe(b, op, last, false).1.Some?
    ensures var (c, found) := Subscribe(Run(Fresh(config, now), steps), op, last, false);
            && birth in c.logs && (found.value.replay == Unseen(c, op.id, birth, last) <==> found.value.birth == birth)
            && found.value.birth in c.logs && last <= |c.logs[found.value.birth].events|
            && found.value.replay == c.logs[found.value.birth].events[last..]
  {
    RunKeeps(Fresh(config, now), steps);
    RunGapFree(Fresh(config, now), steps);
    ResumeIsExactIffSameStream(Run(Fresh(config, now), steps), op, birth, last);
    ReplayIsLogTail(Run(Fresh(config, now), steps), op, last);
  }

  // ---------- terminal events over the life of a stream ----------

  /** Between two terminal events of one stream its retained events were cleared, because they had expired or
      because a later attempt began. */
  lemma TerminalsAreApart(config: Config, now: int, steps: seq<Step>, birth: nat, i: nat, j: nat) returns (why: Clearing)
    requires ValidConfig(config) && Possible(Fresh(config, now), steps)
    requires var b := Run(Fresh(config, now), steps);
             && birth in b.logs && i < j < |b.logs[birth].events|
             && b.logs[birth].events[i].Terminal? && b.logs[birth].events[j].Terminal?
    ensures why in Run(Fresh(config, now), steps).logs[birth].clearings && i < why.at <= j
    ensures if why.Expiry? then why.expiresAt <= why.now else why.from < why.to
  {
    var b := Run(Fresh(config, now), steps);
    RunKeeps(Fresh(config, now), steps);
    assert LogOk(b.logs, birth);
    var log := b.logs[birth];
    assert log.events[i].Terminal? && log.events[j].Terminal?;
    assert ClearedBetween(log, i, j);
    var k :| 0 <= k < |log.clearings| && i < log.clearings[k].at <= j;
    why := log.clearings[k];
  }

  /** The stream of the operation, of its target and attempt, whose log ends with the terminal event `e`. */
  ghost predicate EndedWith(b: Broker, op: Operation, e: StreamEvent) {
    && op.id in b.states && SameTarget(b.states[op.id], op) && b.states[op.id].attemptCount == op.attemptCount
    && b.states[op.id].birth in b.logs && b.logs[b.states[op.id].birth].events != []
    && e == b.logs[b.states[op.id].birth].events[|b.logs[b.states[op.id].birth].events| - 1] && e.Terminal?
  }

  predicate Unexpired(b: Broker, id: Id) {
    id in b.states && b.states[id].historyExpiresAt.Some? && b.now < b.states[id].historyExpiresAt.value
  }

  lemma NotErased(b: Broker, op: Operation)
    requires Inv(b) && op.id in b.states && SameTarget(b.states[op.id], op)
    ensures !IsErased(b, op) && !b.closed
  {
    assert Unburied(b, op.id);
    assert Covers(OperationGrave(op.id), op.id, b.states[op.id]);
    assert Covers(AccountGrave(op.accountId), op.id, b.states[op.id]);
    assert Covers(InterviewGrave(op.accountId, op.interviewId), op.id, b.states[op.id]);
  }

  /** Before it expires, the terminal event is found again. */
  lemma UnexpiredAnswersAgain(b: Broker, op: Operation, unknown: bool, failing: set<nat>, e: StreamEvent)
    requires Inv(b) && Finished(op) && EndedWith(b, op, e) && Unexpired(b, op.id)
    ensures Send(b, op, SayEnd, unknown, failing).1 == One(e) && Send(b, op, SayEnd, unknown, failing).0.logs == b.logs
  {
    NotErased(b, op);
    assert StreamOk(b, op.id);
    CheckKeeps(b, op);
    assert AfterErasedCheck(b, op).logs == b.logs;
  }

  /** Looking for an expired stream changes the logs: its clearing is noted, or a new log begins. */
  lemma ExpiredChangesLogs(b: Broker, op: Operation, unknown: bool)
    requires Inv(b) && op.id in b.states && SameTarget(b.states[op.id], op) && HasExpired(b, op.id)
    ensures var f := FindState(b, op, unknown);
            (exists birth: nat :: birth in f.logs && birth !in b.logs)
            || (exists birth: nat :: birth in b.logs && birth in f.logs && |f.logs[birth].clearings| > |b.logs[birth].clearings|)
  {
    NotErased(b, op);
    CheckKeeps(b, op);
    var looked := AfterErasedCheck(b, op);
    assert looked.logs == b.logs && looked.nextBirth == b.nextBirth;
    assert StreamOk(b, op.id);
    var f, birth := FindState(b, op, unknown), b.states[op.id].birth;
    if b.states[op.id].listeners == {} {
      assert b.nextBirth in f.logs;
    } else {
      assert |f.logs[birth].clearings| > |b.logs[birth].clearings|;
    }
  }

  lemma ChangedLogsStay(b: Broker, f: Broker, c: Broker)
    requires Steady(f, c)
    requires (exists birth: nat :: birth in f.logs && birth !in b.logs)
             || (exists birth: nat :: birth in b.logs && birth in f.logs && |f.logs[birth].clearings| > |b.logs[birth].clearings|)
    ensures c.logs != b.logs
  {
    if birth: nat :| birth in f.logs && birth !in b.logs {
      assert LogGrows(f, c, birth);
    } else {
      var birth: nat :| birth in b.logs && birth in f.logs && |f.logs[birth].clearings| > |b.logs[birth].clearings|;
      assert LogGrows(f, c, birth);
    }
  }

  /** A cleared stream answers with its next number, if at all. */
  lemma ClearedAnswersAfresh(b: Broker, op: Operation, unknown: bool, failing: set<nat>, e: StreamEvent)
    requires Inv(b) && Finished(op) && EndedWith(b, op, e) && b.states[op.id].historyExpiresAt.None?
    ensures Send(b, op, SayEnd, unknown, failing).1 != One(e)
  {
    NotErased(b, op);
    assert StreamOk(b, op.id);
    CheckKeeps(b, op);
  }

  lemma ExpiredAnswersAfresh(b: Broker, op: Operation, unknown: bool, failing: set<nat>)
    requires Inv(b) && op.id in b.states && SameTarget(b.states[op.id], op) && HasExpired(b, op.id)
    ensures Finished(op) ==> Send(b, op, SayEnd, unknown, failing).0.logs != b.logs
  {
    NotErased(b, op);
    var f, r := FindState(b, op, unknown), Ready(b, op, unknown);
    FindKeeps(b, op, unknown);
    SyncKeeps(f, op);
    EmitKeeps(r, op, SayEnd, failing);
    ExpiredChangesLogs(b, op, unknown);
    Unchanged(f);
    KeptTwice(f, r, Emit(r, op, SayEnd, failing).0);
    if Finished(op) {
      ChangedLogsStay(b, f, Send(b, op, SayEnd, unknown, failing).0);
    }
  }

  /** A finished operation whose stream ended with the terminal event `e`, published again: in every reachable
      broker the answer is `e` and nothing is published or cleared, if and only if `e` has not expired. */
  lemma TerminalAgainIffUnexpired(config: Config, now: int, steps: seq<Step>, op: Operation, unknown: bool, failing: set<nat>, e: StreamEvent)
    requires ValidConfig(config) && Possible(Fresh(config, now), steps)
    requires Finished(op) && EndedWith(Run(Fresh(config, now), steps), op, e)
    ensures var b := Run(Fresh(config, now), steps);
            var (c, answer) := Send(b, op, SayEnd, unknown, failing);
            answer == One(e) && c.logs == b.logs <==> Unexpired(b, op.id)
  {
    var b := Run(Fresh(config, now), steps);
    RunKeeps(Fresh(config, now), steps);
    if Unexpired(b, op.id) {
      UnexpiredAnswersAgain(b, op, unknown, failing, e);
    } else if HasExpired(b, op.id) {
      ExpiredAnswersAfresh(b, op, unknown, failing);
    } else {
      ClearedAnswersAfresh(b, op, unknown, failing, e);
    }
  }
}
