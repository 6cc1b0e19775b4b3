/** Cancelling, retrying and refreshing: what it leaves alone and when it is possible. */
module EngineRetries {
  import opened Basics
  import opened InterviewModel
  import opened Engine
  import opened EngineInvariant
  import opened EngineRuns

  // ---------- the version counts accepted commands ----------

  /** How many commands are accepted along the steps. */
  ghost function AcceptedAlong(w: World, steps: seq<Step>): nat
    decreases |steps|
  {
    if steps == [] then 0
    else (if steps[0].Do? && Handle(w.interview, steps[0].command).Ok? then 1 else 0) + AcceptedAlong(Next(w, steps[0]), steps[1..])
  }

  lemma StepAccepts(w: World, s: Step)
    ensures Next(w, s).accepted == w.accepted + if s.Do? && Handle(w.interview, s.command).Ok? then 1 else 0
  {
  }

  lemma {:induction false} RunAccepts(w: World, steps: seq<Step>)
    ensures Run(w, steps).accepted == w.accepted + AcceptedAlong(w, steps)
    decreases |steps|
  {
    if steps != [] {
      StepAccepts(w, steps[0]);
      RunAccepts(Next(w, steps[0]), steps[1..]);
    }
  }

  /** The version of an interview rises by exactly one per accepted command and by nothing else. */
  lemma VersionCountsCommands(w: World, steps: seq<Step>)
    requires Sound(w) && w.interview.Some?
    ensures Run(w, steps).interview.Some?
    ensures Run(w, steps).interview.value.version == w.interview.value.version + AcceptedAlong(w, steps)
  {
    RunGrows(w, steps);
    RunIsSound(w, steps);
    RunAccepts(w, steps);
  }

  lemma PlannedVersion(i: Interview, c: Command, p: Plan)
    requires !c.body.CreateInterview? && Handled(i, c) == Ok(Planned(p))
    ensures IsPlannable(c.body) && c.interviewId == i.id && c.expectedVersion == i.version && i.pending.None?
    ensures PlanCommand(i, c) == Ok(p) && p.interview == Accepted(i, c, c.occurredAt)
  {
  }

  /** A retry of an accepted command is accepted only if no other command was accepted since. */
  lemma RetryNeedsQuiet(w: World, c: Command, p: Plan, steps: seq<Step>, at: int)
    requires Sound(w) && w.interview.Some? && !c.body.CreateInterview? && Handled(w.interview.value, c) == Ok(Planned(p))
    ensures IsPlannable(c.body) && Run(Next(w, Do(c)), steps).interview.Some?
    ensures RetryOperation(Run(Next(w, Do(c)), steps).interview.value, c, at).Ok? ==> AcceptedAlong(Next(w, Do(c)), steps) == 0
  {
    PlannedVersion(w.interview.value, c, p);
    StepIsSound(w, Do(c));
    VersionCountsCommands(Next(w, Do(c)), steps);
  }

  // ---------- cycles of failure and retry ----------

  /** A step of such a cycle: cancel, retry the same command, refresh, or any step that fails. */
  ghost predicate CycleStep(w: World, s: Step, c: Command) {
    s.CancelPending? || s.RefreshPending? || (s.RetryPending? && s.command == c) || Next(w, s) == w
  }

  ghost predicate Cycles(w: World, steps: seq<Step>, c: Command)
    decreases |steps|
  {
    steps == [] || (CycleStep(w, steps[0], c) && Cycles(Next(w, steps[0]), steps[1..], c))
  }

  /** The interview as it was when the command came, or with the command pending, at the next version; only
      the activity time differs. The plan is the first plan at another acceptance time. */
  ghost predicate Neutral(i: Interview, c: Command, p: Plan, w: World, log: seq<Event>) {
    && w.interview.Some? && w.log == log
    && var j := w.interview.value;
       if w.plan.Some? then
         j == Accepted(i, c, j.lastActivityAt) && w.plan.value == Replan(p, j)
       else
         j == i.(version := i.version + 1, lastActivityAt := j.lastActivityAt)
  }

  lemma CancelIsNeutral(i: Interview, c: Command, p: Plan, w: World, log: seq<Event>)
    requires Sound(w) && w.interview.Some? && w.plan.Some? && Neutral(i, c, p, w, log)
    requires IsPlannable(c.body) && i.pending.None? && i.phase == Some(PhaseFor(c.body)) && p.command == c
    ensures Neutral(i, c, p, AfterCancel(w, w.interview.value, w.plan.value), log)
  {
    CancelGood(w.interview.value, w.plan.value);
  }

  lemma RefreshIsNeutral(i: Interview, c: Command, p: Plan, w: World, log: seq<Event>, id: Id, at: int)
    requires Sound(w) && w.interview.Some? && w.plan.Some? && Neutral(i, c, p, w, log) && IsPlannable(c.body)
    ensures Neutral(i, c, p, AfterRefresh(w, w.interview.value, w.plan.value, id, at), log)
  {
  }

  lemma RetryIsNeutral(i: Interview, c: Command, p: Plan, w: World, log: seq<Event>, at: int)
    requires Sound(w) && w.interview.Some? && Neutral(i, c, p, w, log)
    requires IsPlannable(c.body) && i.pending.None? && i.phase == Some(PhaseFor(c.body)) && PlanCommand(i, c) == Ok(p) && c.interviewId == i.id
    ensures Neutral(i, c, p, AfterRetry(w, w.interview.value, c, at), log)
  {
    var j := w.interview.value;
    if RetryOperation(j, c, at).Ok? {
      assert w.plan.None? && j == i.(version := i.version + 1, lastActivityAt := j.lastActivityAt);
      SameChecks(i, j, c);
    }
  }

  lemma SameChecks(i: Interview, j: Interview, c: Command)
    requires IsPlannable(c.body) && j == i.(version := j.version, lastActivityAt := j.lastActivityAt)
    ensures PlanChecks(j, c) == PlanChecks(i, c)
  {
  }

  lemma CycleStepIsNeutral(i: Interview, c: Command, p: Plan, w: World, log: seq<Event>, s: Step)
    requires Sound(w) && Neutral(i, c, p, w, log) && CycleStep(w, s, c)
    requires IsPlannable(c.body) && i.pending.None? && i.phase == Some(PhaseFor(c.body)) && PlanCommand(i, c) == Ok(p) && c.interviewId == i.id
    ensures Neutral(i, c, p, Next(w, s), log)
  {
    if Next(w, s) != w && (s.CancelPending? || s.RefreshPending?) && w.plan.Some? {
      if s.CancelPending? {
        CancelIsNeutral(i, c, p, w, log);
      } else {
        RefreshIsNeutral(i, c, p, w, log, s.operationId, s.acceptedAt);
      }
    } else if s.RetryPending? && s.command == c {
      RetryIsNeutral(i, c, p, w, log, s.acceptedAt);
    }
  }

  lemma {:induction false} CycleIsNeutral(i: Interview, c: Command, p: Plan, w: World, log: seq<Event>, steps: seq<Step>)
    requires Sound(w) && Neutral(i, c, p, w, log) && Cycles(w, steps, c)
    requires IsPlannable(c.body) && i.pending.None? && i.phase == Some(PhaseFor(c.body)) && PlanCommand(i, c) == Ok(p) && c.interviewId == i.id
    ensures Neutral(i, c, p, Run(w, steps), log)
    decreases |steps|
  {
    if steps != [] {
      CycleStepIsNeutral(i, c, p, w, log, steps[0]);
      StepIsSound(w, steps[0]);
      CycleIsNeutral(i, c, p, Next(w, steps[0]), log, steps[1..]);
    }
  }

  /** Any number of cancel, retry and refresh steps after acceptance, whatever their times and whether they
      succeed, leaves the interview, the plan and the log as at first acceptance, except for the times of
      acceptance and activity, and leaves the version one higher than before the command. */
  lemma FailuresAndRetriesAreNeutral(w: World, c: Command, p: Plan, steps: seq<Step>)
    requires Sound(w) && w.interview.Some? && !c.body.CreateInterview? && Handled(w.interview.value, c) == Ok(Planned(p))
    requires Cycles(Next(w, Do(c)), steps, c)
    ensures Neutral(w.interview.value, c, p, Run(Next(w, Do(c)), steps), w.log)
  {
    var i := w.interview.value;
    PlannedVersion(i, c, p);
    StepIsSound(w, Do(c));
    assert Replan(p, p.interview) == p;
    CycleIsNeutral(i, c, p, Next(w, Do(c)), w.log, steps);
  }

  // ---------- when a retry is possible ----------

  lemma CancelledChecks(i: Interview, p: Plan)
    requires ListOk(i) && i.status == Active && PlanFits(i, p)
    ensures var j := i.(phase := Some(PhaseFor(p.command.body)), pending := None);
            PlanChecks(j, p.command).Ok?
            && (p.AnswerPlan? ==> PlanChecks(j, p.command).value == i.questions[i.current - 1])
  {
    CurrentFound(i);
  }

  /** The plan, its pending operation and the activity of its interview are of this time. */
  predicate StartsAt(p: Plan, at: int) {
    && p.acceptedAt == at && p.interview.lastActivityAt == at
    && p.interview.pending.Some? && p.interview.pending.value.acceptedAt == at
  }

  lemma CancelledRetries(i: Interview, p: Plan, j: Interview, at: int)
    requires PlanFits(i, p) && PlanChecks(j, p.command).Ok?
    requires p.AnswerPlan? ==> PlanChecks(j, p.command).value == i.questions[i.current - 1]
    requires j == i.(phase := Some(PhaseFor(p.command.body)), pending := None)
    ensures var r := RetryOperation(j, p.command, at);
            (r.Ok? <==> at >= i.lastActivityAt) && (r.Ok? ==> r.value == Replan(p, r.value.interview) && StartsAt(r.value, at))
  {
  }

  /** A cancelled operation can be retried at any time that is not before the last activity, and the new plan
      is the old one at the new time. */
  lemma CancelledCanRetry(i: Interview, p: Plan, at: int)
    requires Good(i) && PlanFits(i, p)
    ensures CancelOperation(i, p).Ok? && IsPlannable(p.command.body)
    ensures var r := RetryOperation(CancelOperation(i, p).value, p.command, at);
            (r.Ok? <==> at >= i.lastActivityAt) && (r.Ok? ==> r.value == Replan(p, r.value.interview) && StartsAt(r.value, at))
  {
    PlanAccepted(i, p);
    CancelledChecks(i, p);
    CancelledRetries(i, p, i.(phase := Some(PhaseFor(p.command.body)), pending := None), at);
  }

  /** After a completion in time the command's own phase is back only for a clarification; an answer has
      used up its material id. */
  lemma CompletedChecks(i: Interview, p: Plan, c: Completion)
    requires ListOk(i) && PlanFits(i, p) && CompleteOperation(i, p, c).Ok? && !Expired(i, c.occurredAt)
    ensures PlanChecks(CompleteOperation(i, p, c).value.interview, p.command).Ok? <==> p.ClarificationPlan?
    ensures var j := CompleteOperation(i, p, c).value.interview;
            j.id == i.id && j.version == i.version && j.pending.None? && j.lastActivityAt == i.lastActivityAt
  {
    CurrentFound(i);
    assert QuestionOk(i, i.current - 1);
    var q := i.questions[i.current - 1];
    var r, phase := CompletedAs(i, p, c, q);
    ReplaceAt(i, r);
    if p.AnswerPlan? {
      LastMaterial(q.answerMaterial, p.material);
    }
    FinishedChecks(i, p.command, r, phase);
  }

  lemma FinishedChecks(i: Interview, c: Command, r: QuestionState, phase: Phase)
    requires IsPlannable(c.body) && i.status == Active && 1 <= i.current <= |i.questions| && r.position == i.current
    requires Replace(i.questions, r) == i.questions[i.current - 1 := r]
    requires if c.body.RequestClarification? then phase == AwaitingResponse else c.body.materialId in MaterialIds(r.answerMaterial)
    ensures PlanChecks(Finished(i, r, phase), c).Ok? <==> c.body.RequestClarification?
  {
  }

  lemma LastMaterial(materials: seq<AnswerMaterial>, m: AnswerMaterial)
    ensures m.id in MaterialIds(materials + [m])
  {
    assert MaterialIds(materials + [m])[|materials|] == m.id;
  }

  /** Completing does not raise the version, so the engine alone does not refuse a retry of a completed
      operation: after a completion in time, its command can be retried exactly when it was a request for
      a clarification (at any time that is not before the last activity). */
  lemma CompletedCanRetryOnlyClarification(i: Interview, p: Plan, c: Completion, at: int)
    requires Good(i) && PlanFits(i, p) && CompleteOperation(i, p, c).Ok? && !Expired(i, c.occurredAt)
    requires at >= i.lastActivityAt
    ensures RetryOperation(CompleteOperation(i, p, c).value.interview, p.command, at).Ok? <==> p.ClarificationPlan?
  {
    CompletedChecks(i, p, c);
  }
}
