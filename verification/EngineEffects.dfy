/** What every engine operation accepts and leaves behind, field by field. */
module EngineEffects {
  import opened Basics
  import opened Sequences
  import opened TextOrder
  import opened InterviewModel
  import opened Scoring
  import opened Engine
  import opened EngineInvariant

  // ---------- what a command meets ----------

  const DAY_MS: int := 86400000

  /** The command is for this interview at its version, and not from before its last activity. */
  predicate Addressed(i: Interview, c: Command) {
    c.interviewId == i.id && c.expectedVersion == i.version && c.occurredAt >= i.lastActivityAt
  }

  /** The command comes within a day of the last activity. */
  predicate InTime(i: Interview, c: Command) {
    c.occurredAt - i.lastActivityAt <= DAY_MS
  }

  // ---------- what stays ----------

  predicate SameIdentity(i: Interview, j: Interview) {
    && j.id == i.id && j.accountId == i.accountId && j.questionCount == i.questionCount
    && j.blueprint == i.blueprint && j.createdAt == i.createdAt
  }

  /** Every question but the current one is the same. */
  predicate OthersSame(i: Interview, j: Interview) {
    |j.questions| == |i.questions| && forall k :: 0 <= k < |i.questions| && k != i.current - 1 ==> j.questions[k] == i.questions[k]
  }

  predicate NoReport(j: Interview) {
    j.pendingReportKind.None? && j.reportRequestedAt.None? && j.reportId.None?
  }

  function Now(i: Interview): QuestionState
    requires 1 <= i.current <= |i.questions|
  {
    i.questions[i.current - 1]
  }

  // ---------- marking unknown and skipping ----------

  /** The current question has this outcome and no evaluation, and nothing else of it changed; one event says so. */
  predicate LeavesUnevaluated(i: Interview, c: Command, t: Transition, outcome: Outcome) {
    var j := t.interview;
    && 1 <= i.current <= |i.questions| && SameIdentity(i, j) && OthersSame(i, j) && j.current == i.current
    && Now(j).outcome == Some(outcome) && Now(j).evaluation.None?
    && Now(j).position == i.current && Now(j).answerMaterial == Now(i).answerMaterial && Now(j).frozen == Now(i).frozen
    && Now(j).clarifications == Now(i).clarifications && Now(j).followUps == Now(i).followUps
    && j.status == Active && j.phase == Some(AwaitingContinue) && j.pending.None? && NoReport(j)
    && j.version == i.version + 1 && j.lastActivityAt == c.occurredAt
    && t.events == [Event(i.id, c.operationId, c.occurredAt, UnevaluatedOutcome(i.current, outcome))]
  }

  lemma ReplacedNow(i: Interview, q: QuestionState)
    requires ListOk(i) && q.position == i.current
    ensures var after := Replace(i.questions, q);
            |after| == |i.questions| && after[i.current - 1] == q
            && forall k :: 0 <= k < |i.questions| && k != i.current - 1 ==> after[k] == i.questions[k]
  {
    ReplaceAt(i, q);
  }

  /** "I don't know" and skipping are taken exactly while an answer is awaited, and record Unknown and Skipped. */
  lemma UnevaluatedEffect(i: Interview, c: Command)
    requires Good(i) && (c.body.MarkUnknown? || c.body.SkipQuestion?) && InTime(i, c)
    ensures Handled(i, c).Ok? <==> Addressed(i, c) && i.phase == Some(AwaitingResponse)
    ensures Handled(i, c).Ok? ==>
              && Handled(i, c).value.Moved?
              && LeavesUnevaluated(i, c, Handled(i, c).value.transition, if c.body.MarkUnknown? then Unknown else Skipped)
  {
    CurrentFound(i);
    assert QuestionOk(i, i.current - 1);
    var q := i.questions[i.current - 1];
    ReplacedNow(i, q.(evaluation := None, outcome := Some(if c.body.MarkUnknown? then Unknown else Skipped)));
  }

  // ---------- continuing ----------

  /** The current question is frozen, and the next one is awaited, or after the last one the complete report. */
  predicate LeavesContinued(i: Interview, c: Command, t: Transition) {
    var j, last := t.interview, i.current == i.questionCount;
    && 1 <= i.current <= |i.questions| && SameIdentity(i, j) && OthersSame(i, j)
    && j.questions[i.current - 1] == Now(i).(frozen := true)
    && j.current == (if last then i.current else i.current + 1) && j.pending.None? && j.reportId.None?
    && (if last then j.status == ReportPending && j.phase.None? && j.pendingReportKind == Some(Complete) && j.reportRequestedAt == Some(c.occurredAt)
        else j.status == Active && j.phase == Some(AwaitingResponse) && j.pendingReportKind.None? && j.reportRequestedAt.None?)
    && j.version == i.version + 1 && j.lastActivityAt == c.occurredAt
    && t.events == [Event(i.id, c.operationId, c.occurredAt, QuestionFrozen(i.current))]
                   + if last then [Event(i.id, c.operationId, c.occurredAt, ReportRequested(Complete))] else []
  }

  lemma ContinueEffect(i: Interview, c: Command)
    requires Good(i) && c.body.ContinueInterview? && InTime(i, c)
    ensures Handled(i, c).Ok? <==> Addressed(i, c) && i.phase == Some(AwaitingContinue)
    ensures Handled(i, c).Ok? ==> Handled(i, c).value.Moved? && LeavesContinued(i, c, Handled(i, c).value.transition)
  {
    CurrentFound(i);
    assert QuestionOk(i, i.current - 1);
    ReplacedNow(i, i.questions[i.current - 1].(frozen := true));
  }

  // ---------- ending, abandoning, expiring, recording the report ----------

  /** Everything but status, phase, pending operation and the report fields stays. */
  predicate QuestionsStay(i: Interview, j: Interview) {
    SameIdentity(i, j) && j.questions == i.questions && j.current == i.current && j.phase.None? && j.pending.None? && j.version == i.version + 1
  }

  predicate SomeOutcome(i: Interview) {
    exists k :: 0 <= k < |i.questions| && i.questions[k].outcome.Some?
  }

  lemma EndEffect(i: Interview, c: Command)
    requires Good(i) && c.body.EndEarly? && InTime(i, c)
    ensures Handled(i, c).Ok? <==> Addressed(i, c) && i.status == Active && i.pending.None? && SomeOutcome(i)
    ensures Handled(i, c).Ok? ==>
              && Handled(i, c).value.Moved?
              && var t := Handled(i, c).value.transition;
                 && QuestionsStay(i, t.interview) && t.interview.status == ReportPending
                 && t.interview.pendingReportKind == Some(Incomplete) && t.interview.reportRequestedAt == Some(c.occurredAt)
                 && t.interview.reportId.None? && t.interview.lastActivityAt == c.occurredAt
                 && t.events == [Event(i.id, c.operationId, c.occurredAt, ReportRequested(Incomplete))]
  {
  }

  /** The interview is abandoned for this reason; its last activity stays. */
  predicate LeavesAbandoned(i: Interview, operationId: Id, at: int, t: Transition, reason: AbandonReason) {
    && QuestionsStay(i, t.interview) && t.interview.status == Abandoned && NoReport(t.interview)
    && t.interview.lastActivityAt == i.lastActivityAt
    && t.events == [Event(i.id, operationId, at, InterviewAbandoned(reason))]
  }

  lemma AbandonEffect(i: Interview, c: Command)
    requires Good(i) && c.body.AbandonInterview? && InTime(i, c)
    ensures Handled(i, c).Ok? <==> Addressed(i, c) && i.status == Active && i.pending.None?
    ensures Handled(i, c).Ok? ==>
              Handled(i, c).value.Moved? && LeavesAbandoned(i, c.operationId, c.occurredAt, Handled(i, c).value.transition, ByUser)
  {
  }

  /** More than a day after the last activity every command of the interview abandons it, whatever it asks for and
      whatever version it expects; the expiry command itself must be addressed rightly. */
  lemma LateEffect(i: Interview, c: Command)
    requires Good(i) && !c.body.CreateInterview? && i.status == Active && !InTime(i, c)
    ensures Handled(i, c).Ok? <==> c.interviewId == i.id && (c.body.ExpireInterview? ==> c.expectedVersion == i.version)
    ensures Handled(i, c).Ok? ==>
              Handled(i, c).value.Moved? && LeavesAbandoned(i, c.operationId, c.occurredAt, Handled(i, c).value.transition, ByExpiry)
  {
  }

  /** Neither an expiry nor a report comes too early. */
  lemma EarlyIsRefused(i: Interview, c: Command)
    requires Good(i) && (c.body.ExpireInterview? || (c.body.RecordReport? && i.status == Active)) && (InTime(i, c) || i.status != Active)
    ensures Handled(i, c).Err?
  {
  }

  /** The report is recorded exactly when it is awaited, of the awaited kind, and not earlier than its request. */
  lemma ReportEffect(i: Interview, c: Command)
    requires Good(i) && c.body.RecordReport? && i.status != Active
    ensures Handled(i, c).Ok? <==> Addressed(i, c) && i.status == ReportPending && i.pendingReportKind == Some(c.body.reportKind)
    ensures Handled(i, c).Ok? ==>
              && Handled(i, c).value.Moved?
              && var t := Handled(i, c).value.transition;
                 && QuestionsStay(i, t.interview) && t.interview.status == (if c.body.reportKind == Complete then Completed else EarlyEnded)
                 && t.interview.pendingReportKind.None? && t.interview.reportId == Some(c.body.reportId)
                 && t.interview.reportRequestedAt == i.reportRequestedAt && t.interview.lastActivityAt == i.lastActivityAt
                 && t.events == [Event(i.id, c.operationId, c.occurredAt, ReportStored(c.body.reportId, c.body.reportKind))]
  {
  }

  // ---------- accepting an operation, retrying, refreshing ----------

  /** What a plan says: the interview is processing this operation since `at`, and the rest of it is as before. */
  predicate Outstanding(i: Interview, c: Command, p: Plan, at: int) {
    var j, before := p.interview, if c.body.SubmitSupplement? then AwaitingContinue else AwaitingResponse;
    && SameIdentity(i, j) && j.questions == i.questions && j.current == i.current && NoReport(j)
    && j.status == Active && j.phase == Some(Processing) && j.lastActivityAt == at
    && j.pending == Some(PendingOperation(c.operationId, if c.body.RequestClarification? then QuestionClarifying else AnswerAnalysis,
                                          i.current, at, before))
    && p.interviewId == i.id && p.operationId == c.operationId && p.position == i.current && p.acceptedAt == at && p.command == c
    && (p.ClarificationPlan? <==> c.body.RequestClarification?)
    && (p.AnswerPlan? ==> 1 <= i.current <= |i.questions| && MaterialIs(p.material, c, Now(i)))
  }

  /** A supplement is one; an answer answers the follow-up when there is an unanswered one, and else the question. */
  predicate MaterialIs(m: AnswerMaterial, c: Command, q: QuestionState) {
    && (c.body.SubmitAnswer? || c.body.SubmitSupplement?)
    && m.id == c.body.materialId && m.text == c.body.text && m.submittedAt == c.occurredAt
    && (c.body.SubmitSupplement? <==> m.kind == Supplement)
    && (c.body.SubmitAnswer? && |q.followUps| > FollowUpAnswers(q) <==> m.kind == FollowUpAnswer)
  }

  /** The interview waits for what the command brings: a new nonblank text, or nothing in particular. */
  predicate Awaits(i: Interview, c: Command) {
    && i.status == Active && i.pending.None? && 1 <= i.current <= |i.questions|
    && i.phase == Some(if c.body.SubmitSupplement? then AwaitingContinue else AwaitingResponse)
    && (c.body.SubmitAnswer? || c.body.SubmitSupplement? ==>
          NonBlank(c.body.text) && c.body.materialId !in MaterialIds(Now(i).answerMaterial))
  }

  lemma AcceptEffect(i: Interview, c: Command)
    requires Good(i) && IsPlannable(c.body) && InTime(i, c)
    ensures Handled(i, c).Ok? <==> Addressed(i, c) && Awaits(i, c)
    ensures Handled(i, c).Ok? ==>
              Handled(i, c).value.Planned? && Outstanding(i, c, Handled(i, c).value.plan, c.occurredAt)
              && Handled(i, c).value.plan.interview.version == i.version + 1
  {
    CurrentFound(i);
  }

  /** A retry is accepted while the interview waits for the command again, at its next version, and starts at the
      time of the retry: the plan, the pending operation and the last activity are of that time. */
  lemma RetryEffect(i: Interview, c: Command, at: int)
    requires Good(i) && IsPlannable(c.body)
    ensures RetryOperation(i, c, at).Ok? <==> c.interviewId == i.id && i.version == c.expectedVersion + 1 && at >= i.lastActivityAt && Awaits(i, c)
    ensures RetryOperation(i, c, at).Ok? ==>
              Outstanding(i, c, RetryOperation(i, c, at).value, at) && RetryOperation(i, c, at).value.interview.version == i.version
  {
    CurrentFound(i);
  }

  /** A refresh moves the acceptance of the pending operation and the last activity to its time, and nothing else. */
  lemma RefreshEffect(i: Interview, operationId: Id, at: int)
    requires Good(i)
    ensures RefreshOperation(i, operationId, at).Ok? <==> i.pending.Some? && i.pending.value.operationId == operationId && at >= i.lastActivityAt
    ensures RefreshOperation(i, operationId, at).Ok? ==>
              var j := RefreshOperation(i, operationId, at).value;
              && SameIdentity(i, j) && j.questions == i.questions && j.current == i.current && j.version == i.version
              && j.status == Active && j.phase == Some(Processing) && NoReport(j) && j.lastActivityAt == at && j.pending.Some?
              && j.pending.value.acceptedAt == at && j.pending.value.operationId == operationId
              && j.pending.value.operation == i.pending.value.operation && j.pending.value.previousPhase == i.pending.value.previousPhase
              && j.pending.value.questionPosition == i.pending.value.questionPosition
  {
  }

  /** Retrying a report moves the last activity forward, and nothing else. */
  lemma RefreshReportEffect(i: Interview, at: int)
    requires Good(i)
    ensures RefreshReport(i, at).Ok? <==> i.status == ReportPending && at > i.lastActivityAt
    ensures RefreshReport(i, at).Ok? ==>
              var j := RefreshReport(i, at).value;
              && SameIdentity(i, j) && j.questions == i.questions && j.current == i.current && j.version == i.version
              && j.status == ReportPending && j.phase.None? && j.pending.None? && j.pendingReportKind == i.pendingReportKind
              && j.reportRequestedAt == i.reportRequestedAt && j.reportId.None? && j.lastActivityAt == at
  {
  }

  /** Cancelling takes the operation away and gives the phase back in which its command was taken. */
  lemma CancelEffect(i: Interview, p: Plan)
    requires Good(i) && PlanFits(i, p)
    ensures CancelOperation(i, p).Ok?
    ensures var j := CancelOperation(i, p).value;
            && SameIdentity(i, j) && j.questions == i.questions && j.current == i.current && j.version == i.version
            && j.status == Active && j.pending.None? && NoReport(j) && j.lastActivityAt == i.lastActivityAt
            && j.phase == Some(if p.command.body.SubmitSupplement? then AwaitingContinue else AwaitingResponse)
  {
    PlanAccepted(i, p);
  }

  // ---------- completing ----------

  /** The completion is for the outstanding operation, and not from before its acceptance. */
  predicate Belongs(i: Interview, p: Plan, c: Completion) {
    c.interviewId == i.id && c.operationId == p.operationId && c.expectedVersion == i.version && c.occurredAt >= i.lastActivityAt
  }

  predicate CompletedInTime(i: Interview, c: Completion) {
    c.occurredAt - i.lastActivityAt <= DAY_MS
  }

  /** The operation is over, the current question is `q`, and the rest is as before. */
  predicate LeavesCompleted(i: Interview, j: Interview, q: QuestionState, phase: Phase) {
    && 1 <= i.current <= |i.questions| && SameIdentity(i, j) && OthersSame(i, j) && j.questions[i.current - 1] == q && j.current == i.current
    && j.status == Active && j.phase == Some(phase) && j.pending.None? && NoReport(j)
    && j.version == i.version && j.lastActivityAt == i.lastActivityAt
  }

  /** A note joins the clarifications: asked for when the command was given, recorded when it was completed. */
  predicate LeavesClarified(i: Interview, p: Plan, c: Completion, t: Transition) {
    && c.body.RecordClarification? && 1 <= i.current <= |i.questions|
    && LeavesCompleted(i, t.interview,
         QuestionState(i.current, Now(i).answerMaterial,
                       Now(i).clarifications + [ClarificationNote(c.body.messageId, c.body.text, p.command.occurredAt, c.occurredAt)],
                       Now(i).followUps, Now(i).evaluation, Now(i).outcome, Now(i).frozen), AwaitingResponse)
    && t.events == [Event(i.id, p.operationId, p.command.occurredAt, ClarificationRequested(i.current)),
                    Event(i.id, p.operationId, c.occurredAt, ClarificationRecorded(c.body.messageId, i.current, c.body.text))]
  }

  lemma ClarificationEffect(i: Interview, p: Plan, c: Completion)
    requires Good(i) && PlanFits(i, p) && p.ClarificationPlan? && CompletedInTime(i, c)
    ensures CompleteOperation(i, p, c).Ok? <==> Belongs(i, p, c) && c.body.RecordClarification? && NonBlank(c.body.text)
    ensures CompleteOperation(i, p, c).Ok? ==> LeavesClarified(i, p, c, CompleteOperation(i, p, c).value)
  {
    PlanAccepted(i, p);
    CurrentFound(i);
    assert QuestionOk(i, i.current - 1);
    if c.body.RecordClarification? {
      ReplacedNow(i, Clarified(i.questions[i.current - 1], p, c));
    }
  }

  function Submitted(i: Interview, p: Plan): Event
    requires p.AnswerPlan?
  {
    Event(i.id, p.operationId, p.material.submittedAt, MaterialSubmitted(p.material.id, p.material.kind, i.current, p.material.text))
  }

  /** The follow-up names a goal of its kind; neither the goal nor the kind was used before; the purpose is of the
      kind and, exactly for an irrelevant answer, the one for irrelevant answers. */
  predicate FollowUpAllowed(s: Question, q: QuestionState, b: CompletionBody) {
    && b.RecordFollowUp? && NonBlank(b.text)
    && (exists g :: g in s.followUpGoals && g.id == b.goalId && g.kind == b.kind)
    && (forall f :: f in q.followUps ==> f.goalId != b.goalId && f.kind != b.kind)
    && (b.purpose == DepthPurpose <==> b.kind == Depth)
    && (b.purpose == IrrelevantResponseClarification <==> b.classification == Irrelevant)
  }

  /** The material and the follow-up join the question; an earlier evaluation and outcome are gone. */
  predicate LeavesFollowedUp(i: Interview, p: Plan, c: Completion, t: Transition) {
    && c.body.RecordFollowUp? && p.AnswerPlan? && 1 <= i.current <= |i.questions|
    && LeavesCompleted(i, t.interview,
         QuestionState(i.current, Now(i).answerMaterial + [p.material], Now(i).clarifications,
                       Now(i).followUps + [SystemFollowUp(c.body.messageId, c.body.goalId, c.body.kind, c.body.purpose, c.body.classification,
                                                          c.body.text, c.occurredAt)],
                       None, None, Now(i).frozen), AwaitingResponse)
    && t.events == [Submitted(i, p)]
                   + (if Now(i).outcome.Some? then [Event(i.id, p.operationId, c.occurredAt, OutcomeCleared(i.current))] else [])
                   + [Event(i.id, p.operationId, c.occurredAt,
                            FollowUpRecorded(c.body.messageId, i.current, c.body.goalId, c.body.kind, c.body.purpose, c.body.classification, c.body.text))]
  }

  lemma GoalFound(goals: seq<FollowUpGoal>, id: Id, kind: FollowUpKind)
    requires NoDup(GoalIds(goals))
    ensures FindGoal(goals, id).Some? && FindGoal(goals, id).value.kind == kind <==> exists g :: g in goals && g.id == id && g.kind == kind
  {
    FirstGoal(goals, id);
    if g :| g in goals && g.id == id && g.kind == kind {
      OnlyGoal(goals, g);
    }
  }

  lemma {:induction false} FirstGoal(goals: seq<FollowUpGoal>, id: Id)
    ensures FindGoal(goals, id).Some? ==> FindGoal(goals, id).value in goals && FindGoal(goals, id).value.id == id
  {
    if goals != [] && goals[0].id != id {
      FirstGoal(goals[1..], id);
    }
  }

  lemma {:induction false} OnlyGoal(goals: seq<FollowUpGoal>, g: FollowUpGoal)
    requires NoDup(GoalIds(goals)) && g in goals
    ensures FindGoal(goals, g.id) == Some(g)
  {
    var k :| 0 <= k < |goals| && goals[k] == g;
    if k > 0 {
      NoDupIndexed(GoalIds(goals), 0, k);
      assert GoalIds(goals)[0] == goals[0].id && GoalIds(goals)[k] == g.id;
      assert GoalIds(goals)[1..] == GoalIds(goals[1..]);
      NoDupStep(GoalIds(goals));
      assert goals[1..][k - 1] == g;
      OnlyGoal(goals[1..], g);
    }
  }

  lemma GoalsUsed(followUps: seq<SystemFollowUp>, id: Id, kind: FollowUpKind)
    ensures id in FollowUpGoalIds(followUps) <==> exists f :: f in followUps && f.goalId == id
    ensures kind in FollowUpKinds(followUps) <==> exists f :: f in followUps && f.kind == kind
  {
    if id in FollowUpGoalIds(followUps) {
      var k :| 0 <= k < |followUps| && FollowUpGoalIds(followUps)[k] == id;
      assert followUps[k] in followUps;
    }
    if f :| f in followUps && f.goalId == id {
      var k :| 0 <= k < |followUps| && followUps[k] == f;
      assert FollowUpGoalIds(followUps)[k] == id;
    }
    if kind in FollowUpKinds(followUps) {
      var k :| 0 <= k < |followUps| && FollowUpKinds(followUps)[k] == kind;
      assert followUps[k] in followUps;
    }
    if f :| f in followUps && f.kind == kind {
      var k :| 0 <= k < |followUps| && followUps[k] == f;
      assert FollowUpKinds(followUps)[k] == kind;
    }
  }

  lemma FollowUpChecked(s: Question, q: QuestionState, b: CompletionBody)
    requires b.RecordFollowUp? && NoDup(GoalIds(s.followUpGoals))
    ensures NonBlank(b.text) && CheckFollowUp(s, q, b).Holds? <==> FollowUpAllowed(s, q, b)
  {
    GoalFound(s.followUpGoals, b.goalId, b.kind);
    GoalsUsed(q.followUps, b.goalId, b.kind);
  }

  /** What `completeInterviewOperation` checks before it looks at the completion. */
  lemma StillCurrentWhenBelongs(i: Interview, p: Plan, c: Completion)
    requires Good(i) && PlanFits(i, p)
    ensures StillCurrent(i, p, c).Holds? <==> Belongs(i, p, c)
    ensures i.status == Active && i.phase == Some(Processing) && p.position == i.current && p.interviewId == i.id
  {
    PlanAccepted(i, p);
  }

  /** The interview with the current question replaced and the operation over. */
  lemma FinishedLeaves(i: Interview, q: QuestionState, phase: Phase)
    requires Good(i) && i.status == Active && q.position == i.current
    ensures LeavesCompleted(i, Finished(i, q, phase), q, phase)
  {
    assert ListOk(i);
    ReplacedNow(i, q);
  }

  lemma FollowUpEventsAre(i: Interview, p: Plan, c: Completion)
    requires 1 <= i.current <= |i.questions| && p.AnswerPlan? && c.body.RecordFollowUp? && c.operationId == p.operationId && p.position == i.current
    requires Now(i).evaluation.Some? ==> Now(i).outcome.Some?
    ensures FollowUpEvents(i, Now(i), p, c)
            == [Submitted(i, p)]
               + (if Now(i).outcome.Some? then [Event(i.id, p.operationId, c.occurredAt, OutcomeCleared(i.current))] else [])
               + [Event(i.id, p.operationId, c.occurredAt,
                        FollowUpRecorded(c.body.messageId, i.current, c.body.goalId, c.body.kind, c.body.purpose, c.body.classification, c.body.text))]
  {
  }

  lemma FollowUpAccepted(i: Interview, p: Plan, c: Completion)
    requires Good(i) && i.status == Active && i.phase == Some(Processing) && p.AnswerPlan? && c.body.RecordFollowUp?
    ensures 1 <= i.current <= |i.questions| && i.current <= |i.blueprint.questions|
    ensures CompleteFollowUp(i, p, c).Ok? <==> FollowUpAllowed(i.blueprint.questions[i.current - 1].question, Now(i), c.body)
    ensures CompleteFollowUp(i, p, c).Ok? ==>
              CompleteFollowUp(i, p, c).value == Transition(Finished(i, FollowedUp(Now(i), p.material, c), AwaitingResponse), FollowUpEvents(i, Now(i), p, c))
  {
    CurrentFound(i);
    assert ItemFits(i.blueprint.questions, i.current - 1);
    FollowUpChecked(Snapshot(i, i.current - 1), Now(i), c.body);
  }

  lemma FollowUpCompletion(i: Interview, p: Plan, c: Completion)
    requires Good(i) && PlanFits(i, p) && p.AnswerPlan? && c.body.RecordFollowUp? && c.operationId == p.operationId
    ensures CompleteFollowUp(i, p, c).Ok? ==> LeavesFollowedUp(i, p, c, CompleteFollowUp(i, p, c).value)
  {
    StillCurrentWhenBelongs(i, p, c);
    CurrentFound(i);
    assert QuestionOk(i, i.current - 1);
    FollowUpAccepted(i, p, c);
    FinishedLeaves(i, FollowedUp(Now(i), p.material, c), AwaitingResponse);
    FollowUpEventsAre(i, p, c);
  }

  lemma FollowUpEffect(i: Interview, p: Plan, c: Completion)
    requires Good(i) && PlanFits(i, p) && p.AnswerPlan? && c.body.RecordFollowUp? && CompletedInTime(i, c)
    ensures 1 <= i.current <= |i.questions| && i.current <= |i.blueprint.questions|
    ensures CompleteOperation(i, p, c).Ok? <==> Belongs(i, p, c) && FollowUpAllowed(i.blueprint.questions[i.current - 1].question, Now(i), c.body)
    ensures CompleteOperation(i, p, c).Ok? ==> LeavesFollowedUp(i, p, c, CompleteOperation(i, p, c).value)
  {
    StillCurrentWhenBelongs(i, p, c);
    FollowUpAccepted(i, p, c);
    if c.operationId == p.operationId {
      FollowUpCompletion(i, p, c);
    }
  }

  /** Each rubric item has one award, within its weight; points need evidence, and evidence is submitted material;
      an irrelevant answer gets no points, and had its clarification. */
  ghost predicate EvaluationAllowed(s: Question, q: QuestionState, added: Id, e: EvaluationInput) {
    && |e.rubricItems| == |s.rubric|
    && (forall a, b :: 0 <= a < b < |e.rubricItems| ==> e.rubricItems[a].rubricItemId != e.rubricItems[b].rubricItemId)
    && (forall a :: a in e.rubricItems ==> AwardAllowed(s, q, added, a))
    && (e.classification == Irrelevant ==> TotalPoints(e.rubricItems) == 0 && exists f :: f in q.followUps && f.kind == Clarification)
  }

  predicate AwardAllowed(s: Question, q: QuestionState, added: Id, a: Award) {
    && (exists item :: item in s.rubric && item.id == a.rubricItemId && 0 <= a.awardedPoints <= item.weight)
    && (a.awardedPoints > 0 ==> a.evidenceMaterialIds != [])
    && (forall id :: id in a.evidenceMaterialIds ==> id == added || id in MaterialIds(q.answerMaterial))
  }

  /** The material and the evaluation join the question, and the evaluation decides the outcome. */
  predicate LeavesEvaluated(i: Interview, p: Plan, c: Completion, t: Transition) {
    && c.body.RecordEvaluation? && p.AnswerPlan? && 1 <= i.current <= |i.questions|
    && var e, total := c.body.evaluation, TotalPoints(c.body.evaluation.rubricItems);
    && var outcome := if e.classification == Irrelevant then OffTopic else if total == 0 then Incorrect else Scored(total);
    && LeavesCompleted(i, t.interview,
         QuestionState(i.current, Now(i).answerMaterial + [p.material], Now(i).clarifications, Now(i).followUps,
                       Some(QuestionEvaluation(e.id, e.classification, e.rubricItems, outcome)), Some(outcome), Now(i).frozen), AwaitingContinue)
    && t.events == [Submitted(i, p),
                    Event(i.id, p.operationId, c.occurredAt,
                          EvaluationRecorded(i.current, QuestionEvaluation(e.id, e.classification, e.rubricItems, outcome)))]
  }

  lemma WeightOf(rubric: seq<RubricItem>, id: Id, points: int)
    requires ValidRubric(rubric)
    ensures id in WeightTable(rubric) && 0 <= points <= WeightTable(rubric)[id]
            <==> exists item :: item in rubric && item.id == id && 0 <= points <= item.weight
  {
    WeightTableFits(rubric);
  }

  lemma AddedMaterial(q: QuestionState, m: AnswerMaterial, id: Id)
    ensures id in ToSet(MaterialIds(q.answerMaterial + [m])) <==> id == m.id || id in MaterialIds(q.answerMaterial)
  {
    assert MaterialIds(q.answerMaterial + [m]) == MaterialIds(q.answerMaterial) + [m.id];
  }

  lemma AwardChecked(s: Question, q: QuestionState, m: AnswerMaterial, a: Award)
    requires ValidRubric(s.rubric)
    ensures AwardFits(WeightTable(s.rubric), a, ToSet(MaterialIds(q.answerMaterial + [m]))) <==> AwardAllowed(s, q, m.id, a)
  {
    WeightOf(s.rubric, a.rubricItemId, a.awardedPoints);
    forall id ensures id in ToSet(MaterialIds(q.answerMaterial + [m])) <==> id == m.id || id in MaterialIds(q.answerMaterial) {
      AddedMaterial(q, m, id);
    }
  }

  lemma DistinctAwards(awards: seq<Award>)
    ensures NoDup(AwardIds(awards)) <==> forall a, b :: 0 <= a < b < |awards| ==> awards[a].rubricItemId != awards[b].rubricItemId
  {
    if NoDup(AwardIds(awards)) {
      forall a, b | 0 <= a < b < |awards| ensures awards[a].rubricItemId != awards[b].rubricItemId {
        NoDupIndexed(AwardIds(awards), a, b);
      }
    }
    if forall a, b :: 0 <= a < b < |awards| ==> awards[a].rubricItemId != awards[b].rubricItemId {
      NoDupFromIndex(AwardIds(awards));
    }
  }

  lemma EvaluationChecked(s: Question, q: QuestionState, m: AnswerMaterial, e: EvaluationInput)
    requires ValidRubric(s.rubric)
    ensures CheckEvaluation(s, q, q.answerMaterial + [m], e).Holds? <==> EvaluationAllowed(s, q, m.id, e)
  {
    DistinctAwards(e.rubricItems);
    GoalsUsed(q.followUps, Id(""), Clarification);
    forall a | a in e.rubricItems
      ensures AwardFits(WeightTable(s.rubric), a, ToSet(MaterialIds(q.answerMaterial + [m]))) <==> AwardAllowed(s, q, m.id, a)
    {
      AwardChecked(s, q, m, a);
    }
  }

  lemma EvaluationAccepted(i: Interview, p: Plan, c: Completion)
    requires Good(i) && i.status == Active && i.phase == Some(Processing) && p.AnswerPlan? && c.body.RecordEvaluation?
    ensures 1 <= i.current <= |i.questions| && i.current <= |i.blueprint.questions|
    ensures CompleteEvaluation(i, p, c).Ok? <==>
              EvaluationAllowed(i.blueprint.questions[i.current - 1].question, Now(i), p.material.id, c.body.evaluation)
    ensures CompleteEvaluation(i, p, c).Ok? ==>
              CompleteEvaluation(i, p, c).value.interview == Finished(i, EvaluatedWith(Now(i), p.material, c.body.evaluation), AwaitingContinue)
  {
    CurrentFound(i);
    assert ItemFits(i.blueprint.questions, i.current - 1);
    EvaluationChecked(Snapshot(i, i.current - 1), Now(i), p.material, c.body.evaluation);
  }

  lemma EvaluationCompletion(i: Interview, p: Plan, c: Completion)
    requires Good(i) && PlanFits(i, p) && p.AnswerPlan? && c.body.RecordEvaluation? && c.operationId == p.operationId
    ensures CompleteEvaluation(i, p, c).Ok? ==> LeavesEvaluated(i, p, c, CompleteEvaluation(i, p, c).value)
  {
    StillCurrentWhenBelongs(i, p, c);
    CurrentFound(i);
    assert QuestionOk(i, i.current - 1);
    EvaluationAccepted(i, p, c);
    FinishedLeaves(i, EvaluatedWith(Now(i), p.material, c.body.evaluation), AwaitingContinue);
  }

  lemma EvaluationEffect(i: Interview, p: Plan, c: Completion)
    requires Good(i) && PlanFits(i, p) && p.AnswerPlan? && c.body.RecordEvaluation? && CompletedInTime(i, c)
    ensures 1 <= i.current <= |i.questions| && i.current <= |i.blueprint.questions|
    ensures CompleteOperation(i, p, c).Ok? <==>
              Belongs(i, p, c) && EvaluationAllowed(i.blueprint.questions[i.current - 1].question, Now(i), p.material.id, c.body.evaluation)
    ensures CompleteOperation(i, p, c).Ok? ==> LeavesEvaluated(i, p, c, CompleteOperation(i, p, c).value)
  {
    StillCurrentWhenBelongs(i, p, c);
    EvaluationAccepted(i, p, c);
    if c.operationId == p.operationId {
      EvaluationCompletion(i, p, c);
    }
  }

  /** More than a day after the acceptance, whatever the completion says, the interview is abandoned; only the
      version stays, as for every completion. A plan for an answer takes no clarification, and the reverse. */
  lemma LateCompletionEffect(i: Interview, p: Plan, c: Completion)
    requires Good(i) && PlanFits(i, p)
    ensures !CompletedInTime(i, c) ==> (CompleteOperation(i, p, c).Ok? <==> Belongs(i, p, c))
    ensures !CompletedInTime(i, c) && CompleteOperation(i, p, c).Ok? ==>
              var t := CompleteOperation(i, p, c).value;
              && SameIdentity(i, t.interview) && t.interview.questions == i.questions && t.interview.current == i.current
              && t.interview.status == Abandoned && t.interview.phase.None? && t.interview.pending.None? && NoReport(t.interview)
              && t.interview.version == i.version && t.interview.lastActivityAt == i.lastActivityAt
              && t.events == [Event(i.id, p.operationId, c.occurredAt, InterviewAbandoned(ByExpiry))]
    ensures CompletedInTime(i, c) && (p.ClarificationPlan? <==> !c.body.RecordClarification?) ==> CompleteOperation(i, p, c).Err?
  {
    PlanAccepted(i, p);
  }

  // ---------- creating ----------

  /** A new interview: version 1, the first question awaited, every question untouched. */
  lemma CreateEffect(c: Command)
    requires c.body.CreateInterview?
    ensures Handle(None, c).Ok? <==>
              c.expectedVersion == 0 && NonBlank(c.body.blueprint.selectionSeed) && ValidBlueprint(c.body.blueprint, c.body.questionCount)
    ensures Handle(None, c).Ok? ==>
              && Handle(None, c).value.Moved?
              && var t := Handle(None, c).value.transition;
                 && t.interview.id == c.interviewId && t.interview.accountId == c.body.accountId && t.interview.version == 1
                 && t.interview.questionCount == c.body.questionCount && t.interview.blueprint == c.body.blueprint
                 && t.interview.status == Active && t.interview.phase == Some(AwaitingResponse) && t.interview.current == 1
                 && |t.interview.questions| == c.body.questionCount
                 && (forall k :: 0 <= k < |t.interview.questions| ==> t.interview.questions[k] == QuestionState(k + 1, [], [], [], None, None, false))
                 && t.interview.pending.None? && NoReport(t.interview)
                 && t.interview.createdAt == c.occurredAt && t.interview.lastActivityAt == c.occurredAt
                 && t.events == [Event(c.interviewId, c.operationId, c.occurredAt,
                                       InterviewCreated(c.body.accountId, c.body.questionCount, c.body.blueprint))]
  {
    if Create(c).Ok? {
      CreateGood(c);
      forall k | 0 <= k < |Created(c).questions| ensures Created(c).questions[k] == QuestionState(k + 1, [], [], [], None, None, false) {
        assert QuestionOk(Created(c), k);
      }
    }
  }
}
