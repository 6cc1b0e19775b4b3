/** The interview state machine (packages/domain/src/engine.ts). Times are whole milliseconds. */
module Engine {
  import opened Basics
  import opened Sequences
  import opened TextOrder
  import opened InterviewModel
  import opened Coverage
  import opened Scoring

  // ---------- state ----------

  datatype Status = Active | ReportPending | Completed | EarlyEnded | Abandoned | Deleting

  datatype Phase = AwaitingResponse | Processing | AwaitingContinue

  datatype OperationKind = AnswerAnalysis | QuestionClarifying

  datatype ClarificationNote = ClarificationNote(messageId: Id, text: string, requestedAt: int, recordedAt: int)

  datatype SystemFollowUp = SystemFollowUp(
    messageId: Id,
    goalId: Id,
    kind: FollowUpKind,
    purpose: FollowUpPurpose,
    classification: Classification,
    text: string,
    recordedAt: int)

  datatype QuestionState = QuestionState(
    position: int,
    answerMaterial: seq<AnswerMaterial>,
    clarifications: seq<ClarificationNote>,
    followUps: seq<SystemFollowUp>,
    evaluation: Option<QuestionEvaluation>,
    outcome: Option<Outcome>,
    frozen: bool)

  datatype PendingOperation = PendingOperation(
    operationId: Id,
    operation: OperationKind,
    questionPosition: int,
    acceptedAt: int,
    previousPhase: Phase)

  datatype Interview = Interview(
    id: Id,
    accountId: Id,
    version: int,
    status: Status,
    phase: Option<Phase>,
    questionCount: int,
    blueprint: Blueprint,
    current: int,
    questions: seq<QuestionState>,
    pending: Option<PendingOperation>,
    pendingReportKind: Option<ReportKind>,
    reportRequestedAt: Option<int>,
    reportId: Option<Id>,
    createdAt: int,
    lastActivityAt: int)

  // ---------- commands, completions, events ----------

  datatype CommandBody =
    | CreateInterview(accountId: Id, questionCount: int, blueprint: Blueprint)
    | SubmitAnswer(materialId: Id, text: string)
    | SubmitSupplement(materialId: Id, text: string)
    | RequestClarification
    | MarkUnknown
    | SkipQuestion
    | ContinueInterview
    | EndEarly
    | AbandonInterview
    | ExpireInterview
    | RecordReport(reportId: Id, reportKind: ReportKind)

  datatype Command = Command(interviewId: Id, operationId: Id, expectedVersion: int, occurredAt: int, body: CommandBody)

  datatype CompletionBody =
    | RecordClarification(messageId: Id, text: string)
    | RecordFollowUp(messageId: Id, goalId: Id, kind: FollowUpKind, purpose: FollowUpPurpose, classification: Classification, text: string)
    | RecordEvaluation(evaluation: EvaluationInput)

  datatype Completion = Completion(interviewId: Id, operationId: Id, expectedVersion: int, occurredAt: int, body: CompletionBody)

  datatype AbandonReason = ByUser | ByExpiry

  datatype EventBody =
    | InterviewCreated(accountId: Id, questionCount: int, blueprint: Blueprint)
    | MaterialSubmitted(materialId: Id, kind: MaterialKind, position: int, text: string)
    | ClarificationRequested(position: int)
    | ClarificationRecorded(messageId: Id, position: int, text: string)
    | FollowUpRecorded(messageId: Id, position: int, goalId: Id, followUpKind: FollowUpKind, purpose: FollowUpPurpose,
                       classification: Classification, text: string)
    | OutcomeCleared(position: int)
    | EvaluationRecorded(position: int, evaluation: QuestionEvaluation)
    | UnevaluatedOutcome(position: int, outcome: Outcome)
    | QuestionFrozen(position: int)
    | ReportRequested(reportKind: ReportKind)
    | ReportStored(reportId: Id, reportKind: ReportKind)
    | InterviewAbandoned(reason: AbandonReason)

  datatype Event = Event(interviewId: Id, operationId: Id, occurredAt: int, body: EventBody)

  datatype Plan =
    | AnswerPlan(interviewId: Id, operationId: Id, position: int, acceptedAt: int, interview: Interview, command: Command, material: AnswerMaterial)
    | ClarificationPlan(interviewId: Id, operationId: Id, position: int, acceptedAt: int, interview: Interview, command: Command)

  datatype Transition = Transition(interview: Interview, events: seq<Event>)

  datatype CommandResult = Moved(transition: Transition) | Planned(plan: Plan)

  // ---------- errors ----------

  datatype Fault =
    | VersionConflict(expected: int, actual: int)
    | IdMismatch
    | InvalidBlueprint
    | AlreadyExists
    | DoesNotExist
    | ReportBeforeRequest
    | BeforeActivity
    | OperationPending
    | NoPendingOperation
    | AwaitsReport
    | ReadOnly
    | WrongPhase
    | EmptyText
    | MaterialUsed
    | InvalidQuestionState
    | NothingToFreeze
    | NoOutcomeYet
    | NotExpired
    | NotAwaitingReport
    | WrongReportKind
    | PlanNotAccepted
    | QuestionNotCurrent
    | WrongOperation
    | BeforeAcceptance
    | WrongCompletion
    | UnknownGoal
    | GoalKindMismatch
    | GoalUsed
    | KindUsed
    | PurposeMismatch
    | ClassificationMismatch
    | NoClarificationYet
    | Unscorable
    | NotReportRetry
    | ActivityNotAdvanced

  // ---------- blueprint checks ----------

  function GoalIds(goals: seq<FollowUpGoal>): seq<Id> {
    Map((g: FollowUpGoal) => g.id, goals)
  }

  predicate ValidSnapshot(q: Question) {
    && q.questionVersion >= 1
    && NonBlank(q.sourceWording) && NonBlank(q.displayedWording) && NonBlank(q.knowledgeExplanation)
    && (forall item :: item in q.rubric ==> NonBlank(item.description))
    && ValidRubric(q.rubric)
    && NoDup(GoalIds(q.followUpGoals))
    && (forall g :: g in q.followUpGoals ==> NonBlank(g.goal))
    && (exists g :: g in q.followUpGoals && g.kind == Clarification)
  }

  function KeyOf(item: BlueprintItem): (Id, int) {
    (item.question.questionId, item.question.questionVersion)
  }

  function QuestionKeys(items: seq<BlueprintItem>): seq<(Id, int)> {
    Map(KeyOf, items)
  }

  function SnapshotsOf(items: seq<BlueprintItem>): seq<Question> {
    Map((item: BlueprintItem) => item.question, items)
  }

  predicate ItemFits(items: seq<BlueprintItem>, k: nat) {
    k < |items| && items[k].position == k + 1 && ValidSnapshot(items[k].question)
  }

  ghost predicate ValidItems(items: seq<BlueprintItem>) {
    forall k {:trigger ItemFits(items, k)} :: 0 <= k < |items| ==> ItemFits(items, k)
  }

  /** The blueprints that `create` accepts, apart from the seed. */
  ghost predicate ValidBlueprint(b: Blueprint, count: int) {
    && SupportedCount(count)
    && |b.questions| == count
    && ValidItems(b.questions)
    && NoDup(QuestionKeys(b.questions))
    && Covers(count, SnapshotsOf(b.questions))
    && RightlyUnassessed(count, SnapshotsOf(b.questions), b.unassessedDomain)
  }

  // ---------- small helpers of the source ----------

  const INACTIVITY_LIMIT_MS: int := 24 * 60 * 60 * 1000

  predicate Expired(i: Interview, at: int) {
    i.status == Active && at - i.lastActivityAt > INACTIVITY_LIMIT_MS
  }

  function NeedActive(i: Interview): Guard<Fault> {
    if i.status == ReportPending then Broken(AwaitsReport)
    else if i.status != Active then Broken(ReadOnly)
    else Holds
  }

  function NeedPhase(i: Interview, phase: Phase): Guard<Fault> {
    Need(i.phase == Some(phase), WrongPhase)
  }

  function PurposeKind(purpose: FollowUpPurpose): FollowUpKind {
    if purpose == DepthPurpose then Depth else Clarification
  }

  function IsFollowUpAnswer(): AnswerMaterial -> bool {
    (m: AnswerMaterial) => m.kind == FollowUpAnswer
  }

  function FollowUpAnswers(q: QuestionState): nat {
    |Filter(IsFollowUpAnswer(), q.answerMaterial)|
  }

  predicate Unanswered(q: QuestionState) {
    |q.followUps| > FollowUpAnswers(q)
  }

  function MaterialIds(materials: seq<AnswerMaterial>): (r: seq<Id>)
    ensures |r| == |materials|
  {
    Map((m: AnswerMaterial) => m.id, materials)
  }

  /** The state of the current question, when the list is in order. */
  function CurrentQuestion(i: Interview): Result<QuestionState, Fault> {
    if 1 <= i.current <= |i.questions| && i.questions[i.current - 1].position == i.current
    then Ok(i.questions[i.current - 1]) else Err(InvalidQuestionState)
  }

  function CurrentSnapshot(i: Interview): Result<Question, Fault> {
    if 1 <= i.current <= |i.blueprint.questions| && i.blueprint.questions[i.current - 1].position == i.current
    then Ok(i.blueprint.questions[i.current - 1].question) else Err(InvalidQuestionState)
  }

  function Replacing(q: QuestionState): QuestionState -> QuestionState {
    (c: QuestionState) => if c.position == q.position then q else c
  }

  /** Every question at the position of `q` becomes `q`. */
  function Replace(questions: seq<QuestionState>, q: QuestionState): seq<QuestionState> {
    Map(Replacing(q), questions)
  }

  function FindGoal(goals: seq<FollowUpGoal>, id: Id): Option<FollowUpGoal> {
    if goals == [] then None else if goals[0].id == id then Some(goals[0]) else FindGoal(goals[1..], id)
  }

  function BlankQuestion(position: int): QuestionState {
    QuestionState(position, [], [], [], None, None, false)
  }

  // ---------- creation ----------

  function BlankQuestions(): BlueprintItem -> QuestionState {
    (item: BlueprintItem) => BlankQuestion(item.position)
  }

  function Created(c: Command): Interview
    requires c.body.CreateInterview?
  {
    Interview(c.interviewId, c.body.accountId, 1, Active, Some(AwaitingResponse), c.body.questionCount, c.body.blueprint, 1,
              Map(BlankQuestions(), c.body.blueprint.questions), None, None, None, None, c.occurredAt, c.occurredAt)
  }

  function EventOn(i: Interview, operationId: Id, at: int, body: EventBody): Event {
    Event(i.id, operationId, at, body)
  }

  ghost function Create(c: Command): Result<Transition, Fault>
    requires c.body.CreateInterview?
  {
    var guard := Need(c.expectedVersion == 0, VersionConflict(c.expectedVersion, 0));
    :- guard;
    :- Need(SupportedCount(c.body.questionCount), InvalidBlueprint);
    :- Need(NonBlank(c.body.blueprint.selectionSeed), EmptyText);
    :- Need(ValidBlueprint(c.body.blueprint, c.body.questionCount), InvalidBlueprint);
    Ok(Transition(Created(c), [EventOn(Created(c), c.operationId, c.occurredAt, InterviewCreated(c.body.accountId, c.body.questionCount, c.body.blueprint))]))
  }

  // ---------- accepting an operation ----------

  predicate IsAnswer(body: CommandBody) {
    body.SubmitAnswer? || body.SubmitSupplement?
  }

  predicate IsPlannable(body: CommandBody) {
    IsAnswer(body) || body.RequestClarification?
  }

  /** The phase in which the source takes this command. */
  function PhaseFor(body: CommandBody): Phase {
    if body.SubmitSupplement? then AwaitingContinue else AwaitingResponse
  }

  function KindFor(body: CommandBody): OperationKind {
    if body.RequestClarification? then QuestionClarifying else AnswerAnalysis
  }

  /** The interview with the operation accepted, before any version change. */
  function WithPending(i: Interview, c: Command, acceptedAt: int): Interview {
    i.(phase := Some(Processing),
       pending := Some(PendingOperation(c.operationId, KindFor(c.body), i.current, acceptedAt, PhaseFor(c.body))),
       lastActivityAt := acceptedAt)
  }

  function Accepted(i: Interview, c: Command, acceptedAt: int): Interview {
    WithPending(i, c, acceptedAt).(version := i.version + 1)
  }

  function MaterialFor(c: Command, q: QuestionState): AnswerMaterial
    requires IsAnswer(c.body)
  {
    AnswerMaterial(c.body.materialId,
                   if c.body.SubmitSupplement? then Supplement else if Unanswered(q) then FollowUpAnswer else MainAnswer,
                   c.body.text, c.occurredAt)
  }

  /** The checks shared by a fresh command and a retried one. */
  function PlanChecks(i: Interview, c: Command): Result<QuestionState, Fault>
    requires IsPlannable(c.body)
  {
    var guard := NeedActive(i);
    :- guard;
    :- NeedPhase(i, PhaseFor(c.body));
    if c.body.RequestClarification? then Ok(BlankQuestion(0))
    else
      :- Need(NonBlank(c.body.text), EmptyText);
      var q :- CurrentQuestion(i);
      :- Need(c.body.materialId !in MaterialIds(q.answerMaterial), MaterialUsed);
      Ok(q)
  }

  function PlanOf(i: Interview, c: Command, accepted: Interview, acceptedAt: int, q: QuestionState): Plan
    requires IsPlannable(c.body)
  {
    if c.body.RequestClarification? then ClarificationPlan(i.id, c.operationId, i.current, acceptedAt, accepted, c)
    else AnswerPlan(i.id, c.operationId, i.current, acceptedAt, accepted, c, MaterialFor(c, q))
  }

  function PlanCommand(i: Interview, c: Command): Result<Plan, Fault>
    requires IsPlannable(c.body)
  {
    var q :- PlanChecks(i, c);
    Ok(PlanOf(i, c, Accepted(i, c, c.occurredAt), c.occurredAt, q))
  }

  // ---------- commands that take effect at once ----------

  function WithOutcome(i: Interview, q: QuestionState, outcome: Outcome, at: int): Interview {
    i.(questions := Replace(i.questions, q.(evaluation := None, outcome := Some(outcome))),
       phase := Some(AwaitingContinue), lastActivityAt := at, version := i.version + 1)
  }

  function RecordUnevaluated(i: Interview, c: Command, outcome: Outcome): Result<Transition, Fault> {
    var guard := NeedActive(i);
    :- guard;
    :- NeedPhase(i, AwaitingResponse);
    var q :- CurrentQuestion(i);
    Ok(Transition(WithOutcome(i, q, outcome, c.occurredAt), [EventOn(i, c.operationId, c.occurredAt, UnevaluatedOutcome(i.current, outcome))]))
  }

  function Continued(i: Interview, q: QuestionState, at: int): Interview {
    var final := i.current == i.questionCount;
    i.(questions := Replace(i.questions, q.(frozen := true)),
       current := if final then i.current else i.current + 1,
       status := if final then ReportPending else Active,
       phase := if final then None else Some(AwaitingResponse),
       pending := None,
       pendingReportKind := if final then Some(Complete) else None,
       reportRequestedAt := if final then Some(at) else None,
       lastActivityAt := at,
       version := i.version + 1)
  }

  function Continue(i: Interview, c: Command): Result<Transition, Fault> {
    var guard := NeedActive(i);
    :- guard;
    :- NeedPhase(i, AwaitingContinue);
    var q :- CurrentQuestion(i);
    :- Need(q.outcome.Some?, NothingToFreeze);
    Ok(Transition(Continued(i, q, c.occurredAt),
                  [EventOn(i, c.operationId, c.occurredAt, QuestionFrozen(i.current))]
                  + if i.current == i.questionCount then [EventOn(i, c.operationId, c.occurredAt, ReportRequested(Complete))] else []))
  }

  function EndedEarly(i: Interview, at: int): Interview {
    i.(status := ReportPending, phase := None, pending := None, pendingReportKind := Some(Incomplete),
       reportRequestedAt := Some(at), lastActivityAt := at, version := i.version + 1)
  }

  function End(i: Interview, c: Command): Result<Transition, Fault> {
    var guard := NeedActive(i);
    :- guard;
    :- Need(exists k :: 0 <= k < |i.questions| && i.questions[k].outcome.Some?, NoOutcomeYet);
    Ok(Transition(EndedEarly(i, c.occurredAt), [EventOn(i, c.operationId, c.occurredAt, ReportRequested(Incomplete))]))
  }

  function Closed(i: Interview): Interview {
    i.(status := Abandoned, phase := None, pending := None, pendingReportKind := None, reportRequestedAt := None)
  }

  function Abandon(i: Interview, c: Command, reason: AbandonReason): Transition {
    Transition(Closed(i).(version := i.version + 1), [EventOn(i, c.operationId, c.occurredAt, InterviewAbandoned(reason))])
  }

  function Expire(i: Interview, c: Command): Result<Transition, Fault> {
    var guard := NeedActive(i);
    :- guard;
    :- Need(Expired(i, c.occurredAt), NotExpired);
    Ok(Abandon(i, c, ByExpiry))
  }

  function Reported(i: Interview, reportId: Id, kind: ReportKind): Interview {
    i.(status := if kind == Complete then Completed else EarlyEnded, pending := None, pendingReportKind := None,
       reportId := Some(reportId), version := i.version + 1)
  }

  function Report(i: Interview, c: Command): Result<Transition, Fault>
    requires c.body.RecordReport?
  {
    var guard := Need(i.status == ReportPending, if i.status == Active then NotAwaitingReport else ReadOnly);
    :- guard;
    :- Need(i.pendingReportKind == Some(c.body.reportKind), WrongReportKind);
    :- Need(i.reportRequestedAt.Some? && c.occurredAt >= i.reportRequestedAt.value, ReportBeforeRequest);
    Ok(Transition(Reported(i, c.body.reportId, c.body.reportKind),
                  [EventOn(i, c.operationId, c.occurredAt, ReportStored(c.body.reportId, c.body.reportKind))]))
  }

  // ---------- handling a command ----------

  function Moving(r: Result<Transition, Fault>): Result<CommandResult, Fault> {
    match r case Ok(t) => Ok(Moved(t)) case Err(f) => Err(f)
  }

  function Planning(r: Result<Plan, Fault>): Result<CommandResult, Fault> {
    match r case Ok(p) => Ok(Planned(p)) case Err(f) => Err(f)
  }

  /** The command, once it is known to be current, timely and alone. */
  function Dispatch(i: Interview, c: Command): Result<CommandResult, Fault>
    requires !c.body.CreateInterview?
  {
    match c.body
    case SubmitAnswer(_, _) => Planning(PlanCommand(i, c))
    case SubmitSupplement(_, _) => Planning(PlanCommand(i, c))
    case RequestClarification => Planning(PlanCommand(i, c))
    case MarkUnknown => Moving(RecordUnevaluated(i, c, Unknown))
    case SkipQuestion => Moving(RecordUnevaluated(i, c, Skipped))
    case ContinueInterview => Moving(Continue(i, c))
    case EndEarly => Moving(End(i, c))
    case AbandonInterview =>
      :- NeedActive(i);
      Ok(Moved(Abandon(i, c, ByUser)))
    case ExpireInterview => Moving(Expire(i, c))
    case RecordReport(_, _) => Moving(Report(i, c))
  }

  /** The checks before the dispatch, on an existing interview. */
  function Handled(i: Interview, c: Command): Result<CommandResult, Fault>
    requires !c.body.CreateInterview?
  {
    var guard := Need(c.interviewId == i.id, IdMismatch);
    :- guard;
    if !c.body.ExpireInterview? && Expired(i, c.occurredAt) then Moving(Expire(i, c))
    else
      :- Need(c.expectedVersion == i.version, VersionConflict(c.expectedVersion, i.version));
      :- Need(!(c.body.RecordReport? && i.reportRequestedAt.Some? && c.occurredAt < i.reportRequestedAt.value), ReportBeforeRequest);
      :- Need(c.occurredAt >= i.lastActivityAt, BeforeActivity);
      :- Need(i.pending.None? || c.body.ExpireInterview?, OperationPending);
      Dispatch(i, c)
  }

  ghost function Handle(interview: Option<Interview>, c: Command): Result<CommandResult, Fault> {
    if c.body.CreateInterview? then
      if interview.Some? then Err(AlreadyExists) else Moving(Create(c))
    else if interview.None? then Err(DoesNotExist)
    else Handled(interview.value, c)
  }

  // ---------- completing, cancelling, retrying, refreshing ----------

  predicate SamePending(p: PendingOperation, o: PendingOperation) {
    && o.operationId == p.operationId && o.operation == p.operation && o.questionPosition == p.questionPosition
    && o.acceptedAt == p.acceptedAt && o.previousPhase == p.previousPhase
  }

  /** `assertAcceptedOperation`: the interview still contains the operation that the plan accepted. */
  function AcceptedPlan(i: Interview, p: Plan): Result<PendingOperation, Fault> {
    var guard := Need(p.interviewId == i.id, IdMismatch);
    :- guard;
    :- Need(p.interview.id == i.id, IdMismatch);
    :- Need(p.interview.version == i.version, VersionConflict(p.interview.version, i.version));
    :- Need(p.interview.status == Active && p.interview.phase == Some(Processing)
            && p.interview.lastActivityAt == p.acceptedAt && i.lastActivityAt == p.acceptedAt, PlanNotAccepted);
    :- NeedActive(i);
    :- NeedPhase(i, Processing);
    :- Need(i.pending.Some? && p.interview.pending.Some?, NoPendingOperation);
    var pending := i.pending.value;
    :- Need(pending.operationId == p.operationId && pending.operation == (if p.ClarificationPlan? then QuestionClarifying else AnswerAnalysis)
            && pending.questionPosition == p.position && pending.acceptedAt == p.acceptedAt
            && SamePending(pending, p.interview.pending.value)
            && pending.previousPhase == (if p.ClarificationPlan? || p.command.body.SubmitAnswer? then AwaitingResponse else AwaitingContinue),
            PlanNotAccepted);
    :- Need(p.position == i.current, QuestionNotCurrent);
    Ok(pending)
  }

  /** `assertPlanStillCurrent`: the plan is still accepted and the completion belongs to it. */
  function StillCurrent(i: Interview, p: Plan, c: Completion): Guard<Fault> {
    var accepted := AcceptedPlan(i, p);
    if accepted.Err? then Broken(accepted.error)
    else if c.interviewId != i.id then Broken(IdMismatch)
    else if c.expectedVersion != i.version then Broken(VersionConflict(c.expectedVersion, i.version))
    else if c.occurredAt < i.lastActivityAt then Broken(BeforeActivity)
    else if p.operationId != c.operationId then Broken(WrongOperation)
    else if c.occurredAt < p.acceptedAt then Broken(BeforeAcceptance)
    else Holds
  }

  /** The interview with the current question replaced and the operation finished. */
  function Finished(i: Interview, q: QuestionState, phase: Phase): Interview {
    i.(questions := Replace(i.questions, q), phase := Some(phase), pending := None)
  }

  function Clarified(q: QuestionState, p: Plan, c: Completion): QuestionState
    requires c.body.RecordClarification?
  {
    q.(clarifications := q.clarifications + [ClarificationNote(c.body.messageId, c.body.text, p.command.occurredAt, c.occurredAt)])
  }

  function CompleteClarification(i: Interview, p: Plan, c: Completion): Result<Transition, Fault>
    requires c.body.RecordClarification?
  {
    var guard := NeedActive(i);
    :- guard;
    :- NeedPhase(i, Processing);
    :- Need(NonBlank(c.body.text), EmptyText);
    var q :- CurrentQuestion(i);
    Ok(Transition(Finished(i, Clarified(q, p, c), AwaitingResponse),
                  [EventOn(i, p.operationId, p.command.occurredAt, ClarificationRequested(p.position)),
                   EventOn(i, c.operationId, c.occurredAt, ClarificationRecorded(c.body.messageId, p.position, c.body.text))]))
  }

  function FollowUpGoalIds(followUps: seq<SystemFollowUp>): seq<Id> {
    Map((f: SystemFollowUp) => f.goalId, followUps)
  }

  function FollowUpKinds(followUps: seq<SystemFollowUp>): seq<FollowUpKind> {
    Map((f: SystemFollowUp) => f.kind, followUps)
  }

  function CheckFollowUp(snapshot: Question, q: QuestionState, c: CompletionBody): Guard<Fault>
    requires c.RecordFollowUp?
  {
    var goal := FindGoal(snapshot.followUpGoals, c.goalId);
    if goal.None? then Broken(UnknownGoal)
    else if goal.value.kind != c.kind then Broken(GoalKindMismatch)
    else if c.goalId in FollowUpGoalIds(q.followUps) then Broken(GoalUsed)
    else if c.kind in FollowUpKinds(q.followUps) then Broken(KindUsed)
    else if PurposeKind(c.purpose) != c.kind then Broken(PurposeMismatch)
    else if (c.purpose == IrrelevantResponseClarification) != (c.classification == Irrelevant) then Broken(ClassificationMismatch)
    else Holds
  }

  function FollowedUp(q: QuestionState, material: AnswerMaterial, c: Completion): QuestionState
    requires c.body.RecordFollowUp?
  {
    var b := c.body;
    q.(answerMaterial := q.answerMaterial + [material],
       followUps := q.followUps + [SystemFollowUp(b.messageId, b.goalId, b.kind, b.purpose, b.classification, b.text, c.occurredAt)],
       evaluation := None, outcome := None)
  }

  function MaterialEvent(i: Interview, p: Plan): Event
    requires p.AnswerPlan?
  {
    EventOn(i, p.operationId, p.material.submittedAt, MaterialSubmitted(p.material.id, p.material.kind, p.position, p.material.text))
  }

  function FollowUpEvents(i: Interview, q: QuestionState, p: Plan, c: Completion): seq<Event>
    requires p.AnswerPlan? && c.body.RecordFollowUp?
  {
    var b := c.body;
    [MaterialEvent(i, p)]
    + (if q.evaluation.Some? || q.outcome.Some? then [EventOn(i, p.operationId, c.occurredAt, OutcomeCleared(p.position))] else [])
    + [EventOn(i, c.operationId, c.occurredAt, FollowUpRecorded(b.messageId, p.position, b.goalId, b.kind, b.purpose, b.classification, b.text))]
  }

  function CompleteFollowUp(i: Interview, p: Plan, c: Completion): Result<Transition, Fault>
    requires p.AnswerPlan? && c.body.RecordFollowUp?
  {
    var guard := NeedActive(i);
    :- guard;
    :- NeedPhase(i, Processing);
    :- Need(NonBlank(c.body.text), EmptyText);
    var q :- CurrentQuestion(i);
    var snapshot :- CurrentSnapshot(i);
    :- CheckFollowUp(snapshot, q, c.body);
    Ok(Transition(Finished(i, FollowedUp(q, p.material, c), AwaitingResponse), FollowUpEvents(i, q, p, c)))
  }

  predicate HasClarified(q: QuestionState) {
    Clarification in FollowUpKinds(q.followUps)
  }

  /** `scoreQuestion` on the rubric of the snapshot, the material ids being the valid evidence. */
  function CheckEvaluation(snapshot: Question, q: QuestionState, materials: seq<AnswerMaterial>, e: EvaluationInput): Guard<Fault> {
    if e.classification == Irrelevant && !HasClarified(q) then Broken(NoClarificationYet)
    else if !Acceptable(snapshot.rubric, e.classification, e.rubricItems, ToSet(MaterialIds(materials))) then Broken(Unscorable)
    else Holds
  }

  function EvaluatedWith(q: QuestionState, material: AnswerMaterial, e: EvaluationInput): QuestionState {
    q.(answerMaterial := q.answerMaterial + [material], evaluation := Some(Evaluated(e)), outcome := Some(Evaluated(e).outcome))
  }

  function CompleteEvaluation(i: Interview, p: Plan, c: Completion): Result<Transition, Fault>
    requires p.AnswerPlan? && c.body.RecordEvaluation?
  {
    var guard := NeedActive(i);
    :- guard;
    :- NeedPhase(i, Processing);
    var q :- CurrentQuestion(i);
    var snapshot :- CurrentSnapshot(i);
    :- CheckEvaluation(snapshot, q, q.answerMaterial + [p.material], c.body.evaluation);
    Ok(Transition(Finished(i, EvaluatedWith(q, p.material, c.body.evaluation), AwaitingContinue),
                  [MaterialEvent(i, p),
                   EventOn(i, c.operationId, c.occurredAt, EvaluationRecorded(p.position, Evaluated(c.body.evaluation)))]))
  }

  function CompleteOperation(i: Interview, p: Plan, c: Completion): Result<Transition, Fault> {
    var guard := StillCurrent(i, p, c);
    :- guard;
    if Expired(i, c.occurredAt) then
      Ok(Transition(Closed(i), [EventOn(i, p.operationId, c.occurredAt, InterviewAbandoned(ByExpiry))]))
    else if p.ClarificationPlan? then
      if c.body.RecordClarification? then CompleteClarification(i, p, c) else Err(WrongCompletion)
    else if c.body.RecordFollowUp? then CompleteFollowUp(i, p, c)
    else if c.body.RecordEvaluation? then CompleteEvaluation(i, p, c)
    else Err(WrongCompletion)
  }

  function CancelOperation(i: Interview, p: Plan): Result<Interview, Fault> {
    var pending :- AcceptedPlan(i, p);
    Ok(i.(phase := Some(pending.previousPhase), pending := None))
  }

  function RetryOperation(i: Interview, c: Command, acceptedAt: int): Result<Plan, Fault>
    requires IsPlannable(c.body)
  {
    var guard := Need(c.interviewId == i.id, IdMismatch);
    :- guard;
    :- Need(i.version == c.expectedVersion + 1, VersionConflict(c.expectedVersion + 1, i.version));
    :- Need(acceptedAt >= i.lastActivityAt, BeforeActivity);
    :- Need(i.pending.None?, OperationPending);
    var q :- PlanChecks(i, c);
    Ok(PlanOf(i, c, WithPending(i, c, acceptedAt), acceptedAt, q))
  }

  function Refreshed(i: Interview, pending: PendingOperation, acceptedAt: int): Interview {
    i.(pending := Some(pending.(acceptedAt := acceptedAt)), lastActivityAt := acceptedAt)
  }

  function RefreshOperation(i: Interview, operationId: Id, acceptedAt: int): Result<Interview, Fault> {
    var guard := NeedActive(i);
    :- guard;
    :- NeedPhase(i, Processing);
    :- Need(acceptedAt >= i.lastActivityAt, BeforeActivity);
    :- Need(i.pending.Some?, NoPendingOperation);
    :- Need(i.pending.value.operationId == operationId, WrongOperation);
    Ok(Refreshed(i, i.pending.value, acceptedAt))
  }

  function RefreshReport(i: Interview, acceptedAt: int): Result<Interview, Fault> {
    var guard := Need(i.status == ReportPending && i.phase.None? && i.pending.None? && i.pendingReportKind.Some?
            && i.reportRequestedAt.Some? && i.reportId.None?, NotReportRetry);
    :- guard;
    :- Need(acceptedAt > i.lastActivityAt, ActivityNotAdvanced);
    Ok(i.(lastActivityAt := acceptedAt))
  }
}
