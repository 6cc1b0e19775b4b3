/** Rebuilding commands, plans and completions from stored operations
    (apps/server/src/operation-command-codec.ts, apps/server/src/operation-guards.ts). */
module Codec {
  import opened Basics
  import opened TextOrder
  import opened InterviewModel
  import opened Engine
  import opened EngineInvariant
  import opened EngineRuns
  import opened EngineRetries

  datatype OperationType =
    | CreateOperation
    | AnswerOperation
    | SupplementOperation
    | ClarificationOperation
    | UnknownOperation
    | SkipOperation
    | ContinueOperation
    | EndEarlyOperation
    | AbandonOperation
    | ReportOperation
    | RetryOperationCommand

  /** The JSON input of an operation: a question position and a text, either of which may be missing or bad. */
  datatype OperationInput = OperationInput(questionPosition: Option<int>, text: Option<string>)

  datatype StoredOperation = StoredOperation(
    id: Id,
    interviewId: Id,
    kind: OperationType,
    expectedVersion: int,
    createdAt: int,
    input: OperationInput)

  datatype CodecFault =
    | InvalidPosition
    | InvalidText
    | NotInterviewCommand
    | RetryConflict
    | NoMatchingPending
    | WrongCommandType
    | InvalidQuestion
    | MissingGoal

  /** Identifiers derived from an operation id: `derive(kind, operation)`. */
  type Deriver = (string, Id) -> Id

  function MaterialIdFor(derive: Deriver, operationId: Id): Id {
    derive("answer", operationId)
  }

  function ReadText(input: OperationInput): Result<string, CodecFault> {
    var guard := Need(input.text.Some? && NonBlank(input.text.value), InvalidText);
    :- guard;
    Ok(input.text.value)
  }

  function DecodeBody(derive: Deriver, op: StoredOperation): Result<CommandBody, CodecFault> {
    match op.kind
    case AnswerOperation =>
      var text :- ReadText(op.input);
      Ok(SubmitAnswer(MaterialIdFor(derive, op.id), text))
    case SupplementOperation =>
      var text :- ReadText(op.input);
      Ok(SubmitSupplement(MaterialIdFor(derive, op.id), text))
    case ClarificationOperation => Ok(RequestClarification)
    case UnknownOperation => Ok(MarkUnknown)
    case SkipOperation => Ok(SkipQuestion)
    case ContinueOperation => Ok(ContinueInterview)
    case EndEarlyOperation => Ok(EndEarly)
    case AbandonOperation => Ok(AbandonInterview)
    case _ => Err(NotInterviewCommand)
  }

  function DecodeInitial(derive: Deriver, op: StoredOperation): Result<Command, CodecFault> {
    var guard := Need(op.input.questionPosition.Some? && op.input.questionPosition.value >= 1, InvalidPosition);
    :- guard;
    var body :- DecodeBody(derive, op);
    Ok(Command(op.interviewId, op.id, op.expectedVersion, op.createdAt, body))
  }

  function DecodePlanned(derive: Deriver, op: StoredOperation): Result<Command, CodecFault> {
    var c :- DecodeInitial(derive, op);
    :- Need(IsPlannable(c.body), RetryConflict);
    Ok(c)
  }

  function QuestionFor(i: Interview, position: int): Result<QuestionState, CodecFault> {
    if 1 <= position <= |i.questions| && i.questions[position - 1].position == position
    then Ok(i.questions[position - 1]) else Err(InvalidQuestion)
  }

  /** The kind of the reconstructed material; the question is looked up only for a submitted answer. */
  function MaterialKindFor(i: Interview, c: Command, position: int): Result<MaterialKind, CodecFault> {
    if c.body.SubmitSupplement? then Ok(Supplement)
    else
      var q :- QuestionFor(i, position);
      Ok(if Unanswered(q) then FollowUpAnswer else MainAnswer)
  }

  function ReconstructPlan(derive: Deriver, i: Interview, op: StoredOperation): Result<Plan, CodecFault> {
    var guard := Need(i.pending.Some? && i.pending.value.operationId == op.id, NoMatchingPending);
    :- guard;
    var pending := i.pending.value;
    var c :- DecodePlanned(derive, op);
    if pending.operation == QuestionClarifying then
      :- Need(c.body.RequestClarification?, WrongCommandType);
      Ok(ClarificationPlan(i.id, op.id, pending.questionPosition, pending.acceptedAt, i, c))
    else
      :- Need(IsAnswer(c.body), WrongCommandType);
      var kind :- MaterialKindFor(i, c, pending.questionPosition);
      Ok(AnswerPlan(i.id, op.id, pending.questionPosition, pending.acceptedAt, i, c,
                    AnswerMaterial(MaterialIdFor(derive, op.id), kind, c.body.text, op.createdAt)))
  }

  // ---------- storing ----------

  predicate IsProgress(body: CommandBody) {
    !body.CreateInterview? && !body.ExpireInterview? && !body.RecordReport?
  }

  function TypeFor(body: CommandBody): OperationType
    requires IsProgress(body)
  {
    match body
    case SubmitAnswer(_, _) => AnswerOperation
    case SubmitSupplement(_, _) => SupplementOperation
    case RequestClarification => ClarificationOperation
    case MarkUnknown => UnknownOperation
    case SkipQuestion => SkipOperation
    case ContinueInterview => ContinueOperation
    case EndEarly => EndEarlyOperation
    case AbandonInterview => AbandonOperation
  }

  /** A user's progress command as an operation record. */
  function Store(c: Command, position: int): StoredOperation
    requires IsProgress(c.body)
  {
    StoredOperation(c.operationId, c.interviewId, TypeFor(c.body), c.expectedVersion, c.occurredAt,
                    OperationInput(Some(position), if IsAnswer(c.body) then Some(c.body.text) else None))
  }

  /** Each kind of stored operation stands for its own command, at the time it was stored. */
  lemma DecodedBodies(derive: Deriver, op: StoredOperation)
    requires DecodeInitial(derive, op).Ok?
    ensures var c := DecodeInitial(derive, op).value;
            && c.interviewId == op.interviewId && c.operationId == op.id && c.expectedVersion == op.expectedVersion && c.occurredAt == op.createdAt
            && (c.body.SubmitAnswer? <==> op.kind == AnswerOperation) && (c.body.SubmitSupplement? <==> op.kind == SupplementOperation)
            && (c.body.RequestClarification? <==> op.kind == ClarificationOperation)
            && (c.body.MarkUnknown? <==> op.kind == UnknownOperation) && (c.body.SkipQuestion? <==> op.kind == SkipOperation)
            && (c.body.ContinueInterview? <==> op.kind == ContinueOperation)
            && (c.body.EndEarly? <==> op.kind == EndEarlyOperation) && (c.body.AbandonInterview? <==> op.kind == AbandonOperation)
            && (IsAnswer(c.body) ==> op.input.text == Some(c.body.text) && c.body.materialId == derive("answer", op.id))
  {
  }

  /** Decoding what was stored gives the command back, exactly when the text is nonblank, the position is
      positive and the material id is the derived one. */
  lemma DecodeStored(derive: Deriver, c: Command, position: int)
    requires IsProgress(c.body)
    ensures DecodeInitial(derive, Store(c, position)) == Ok(c) <==>
              && position >= 1
              && (IsAnswer(c.body) ==> NonBlank(c.body.text) && c.body.materialId == MaterialIdFor(derive, c.operationId))
    ensures DecodePlanned(derive, Store(c, position)) == Ok(c) <==> DecodeInitial(derive, Store(c, position)) == Ok(c) && IsPlannable(c.body)
  {
  }

  // ---------- reconstruction is exact ----------

  lemma PendingQuestion(i: Interview)
    requires Good(i) && i.pending.Some?
    ensures QuestionFor(i, i.pending.value.questionPosition) == Ok(i.questions[i.current - 1])
  {
    CurrentFound(i);
  }

  /** In every sound world with an outstanding plan - freshly accepted, retried or refreshed - the plan
      reconstructed from the stored interview and operation is that very plan. */
  lemma ReconstructionIsExact(derive: Deriver, w: World, op: StoredOperation)
    requires Sound(w) && w.interview.Some? && w.plan.Some?
    requires DecodeInitial(derive, op) == Ok(w.plan.value.command)
    ensures ReconstructPlan(derive, w.interview.value, op) == Ok(w.plan.value)
  {
    PendingQuestion(w.interview.value);
  }

  /** Without a matching pending operation there is nothing to reconstruct. */
  lemma NothingToReconstruct(derive: Deriver, w: World, op: StoredOperation)
    requires Sound(w) && w.interview.Some?
    requires w.plan.None? || w.plan.value.operationId != op.id
    ensures ReconstructPlan(derive, w.interview.value, op) == Err(NoMatchingPending)
  {
  }

  // ---------- completions ----------

  datatype Recommendation = Recommendation(goalId: Id, kind: FollowUpKind, purpose: FollowUpPurpose)

  /** What the evaluation model answers. */
  datatype AnswerEvaluation = AnswerEvaluation(
    classification: Classification,
    rubricItems: seq<Award>,
    recommended: Option<Recommendation>)

  datatype ModelCompletion =
    | ClarificationText(text: string)
    | FollowUpText(evaluation: AnswerEvaluation, text: string)
    | EvaluationOnly(evaluation: AnswerEvaluation)

  function CompletionBodyFor(derive: Deriver, op: StoredOperation, m: ModelCompletion): Result<CompletionBody, CodecFault> {
    match m
    case ClarificationText(text) => Ok(RecordClarification(derive("message", op.id), text))
    case FollowUpText(e, text) =>
      :- Need(e.recommended.Some?, MissingGoal);
      var r := e.recommended.value;
      Ok(RecordFollowUp(derive("message", op.id), r.goalId, r.kind, r.purpose, e.classification, text))
    case EvaluationOnly(e) => Ok(RecordEvaluation(EvaluationInput(derive("evaluation", op.id), e.classification, e.rubricItems)))
  }

  function CompletionCommand(derive: Deriver, op: StoredOperation, i: Interview, m: ModelCompletion, at: int): Result<Completion, CodecFault> {
    var body :- CompletionBodyFor(derive, op, m);
    Ok(Completion(i.id, op.id, i.version, at, body))
  }

  /** The completion time, moved up to the acceptance time when the clock lags behind it. */
  function NotBefore(now: int, minimum: int): int {
    if now < minimum then minimum else now
  }

  /** The completion is of the clock's time, unless the clock lags behind the acceptance. */
  predicate TimedBy(c: Completion, now: int, p: Plan) {
    (now >= p.acceptedAt ==> c.occurredAt == now) && (now < p.acceptedAt ==> c.occurredAt == p.acceptedAt)
  }

  /** The completion says what the model said, under identifiers derived from the operation. */
  predicate Carries(derive: Deriver, op: StoredOperation, m: ModelCompletion, b: CompletionBody) {
    match m
    case ClarificationText(text) => b.RecordClarification? && b.messageId == derive("message", op.id) && b.text == text
    case FollowUpText(e, text) =>
      && b.RecordFollowUp? && b.messageId == derive("message", op.id) && b.text == text && b.classification == e.classification
      && e.recommended == Some(Recommendation(b.goalId, b.kind, b.purpose))
    case EvaluationOnly(e) =>
      && b.RecordEvaluation? && b.evaluation.id == derive("evaluation", op.id)
      && b.evaluation.classification == e.classification && b.evaluation.rubricItems == e.rubricItems
  }

  /** A completion built for the reconstructed plan at a clamped time always belongs to the plan, whatever
      the clock says, and carries what the model said. */
  lemma ClampedCompletionIsCurrent(derive: Deriver, w: World, op: StoredOperation, m: ModelCompletion, now: int)
    requires Sound(w) && w.interview.Some? && w.plan.Some?
    requires DecodeInitial(derive, op) == Ok(w.plan.value.command)
    ensures var i, p := w.interview.value, w.plan.value;
            var c := CompletionCommand(derive, op, i, m, NotBefore(now, p.acceptedAt));
            (c.Ok? <==> !(m.FollowUpText? && m.evaluation.recommended.None?))
            && (c.Ok? ==> StillCurrent(i, p, c.value).Holds? && TimedBy(c.value, now, p) && Carries(derive, op, m, c.value.body))
  {
    PlanAccepted(w.interview.value, w.plan.value);
  }

  /** The record stored when a command was accepted serves every later attempt: after any cycle of
      cancellations, retries and refreshes, the plan then outstanding is the one it reconstructs. */
  lemma ReconstructionSurvivesRetries(derive: Deriver, w: World, c: Command, p: Plan, steps: seq<Step>, op: StoredOperation)
    requires Sound(w) && w.interview.Some? && !c.body.CreateInterview? && Handled(w.interview.value, c) == Ok(Planned(p))
    requires Cycles(Next(w, Do(c)), steps, c) && DecodeInitial(derive, op) == Ok(c)
    ensures var last := Run(Next(w, Do(c)), steps);
            last.interview.Some? && (last.plan.Some? ==> ReconstructPlan(derive, last.interview.value, op) == Ok(last.plan.value))
  {
    var last := Run(Next(w, Do(c)), steps);
    PlannedVersion(w.interview.value, c, p);
    FailuresAndRetriesAreNeutral(w, c, p, steps);
    StepIsSound(w, Do(c));
    RunIsSound(Next(w, Do(c)), steps);
    if last.plan.Some? {
      ReconstructionIsExact(derive, last, op);
    }
  }
}
