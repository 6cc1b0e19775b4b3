/** The actions offered to the client (packages/contracts/src/interview-response-mappings.ts). */
module Actions {
  import opened Basics
  import opened TextOrder
  import opened InterviewModel
  import opened Engine
  import opened EngineInvariant

  datatype Action = Answer | Supplement | Clarify | Unknown | Skip | Continue | EndEarly | Abandon | Retry

  datatype OperationStatus = Pending | Running | Succeeded | Failed(retryable: bool)

  /** The operation shown next to an interview. */
  datatype Projection = Projection(operationId: Id, status: OperationStatus)

  datatype MappingFault = InvalidState

  function AwaitingResponseActions(i: Interview): seq<Action> {
    [Answer, Clarify, Action.Unknown, Skip]
    + (if exists k :: 0 <= k < |i.questions| && i.questions[k].outcome.Some? then [Action.EndEarly] else [])
    + [Abandon]
  }

  function RetryIf(op: Option<Projection>): seq<Action> {
    if op.Some? && op.value.status.Failed? && op.value.status.retryable then [Action.Retry] else []
  }

  /** `mapActiveInterview`, its `availableActions` part. */
  function ActiveActions(i: Interview, op: Option<Projection>): Result<seq<Action>, MappingFault> {
    var guard := Need(i.phase.Some?, InvalidState);
    :- guard;
    match i.phase.value
    case Processing =>
      :- Need(i.pending.Some?, InvalidState);
      :- Need(op.Some? && op.value.status == Running && op.value.operationId == i.pending.value.operationId, InvalidState);
      Ok([])
    case AwaitingResponse =>
      if op.Some? && !op.value.status.Failed? then Ok([]) else Ok(AwaitingResponseActions(i) + RetryIf(op))
    case AwaitingContinue =>
      :- Need(op.None? || op.value.status.Failed?, InvalidState);
      Ok([Action.Supplement, Continue, Action.EndEarly, Abandon] + RetryIf(op))
  }

  /** `mapReportPendingInterview`, its `availableActions` part. */
  function ReportPendingActions(i: Interview, op: Option<Projection>): Result<seq<Action>, MappingFault> {
    var guard := Need(i.pendingReportKind.Some?, InvalidState);
    :- guard;
    :- Need(op.Some? && op.value.status.Failed? ==> op.value.status.retryable, InvalidState);
    if op.None? then Ok([]) else Ok(if op.value.status.Failed? then [Action.Retry] else [])
  }

  /** A command that a client sends for an action: current, in time, and with a usable answer. */
  predicate Matches(i: Interview, a: Action, c: Command) {
    && c.interviewId == i.id && c.expectedVersion == i.version
    && i.lastActivityAt <= c.occurredAt && !Expired(i, c.occurredAt)
    && (IsAnswer(c.body) ==>
          && NonBlank(c.body.text) && 1 <= i.current <= |i.questions|
          && c.body.materialId !in MaterialIds(i.questions[i.current - 1].answerMaterial))
    && match a
       case Answer => c.body.SubmitAnswer?
       case Supplement => c.body.SubmitSupplement?
       case Clarify => c.body.RequestClarification?
       case Unknown => c.body.MarkUnknown?
       case Skip => c.body.SkipQuestion?
       case Continue => c.body.ContinueInterview?
       case EndEarly => c.body.EndEarly?
       case Abandon => c.body.AbandonInterview?
       case Retry => false
  }

  /** The operation shown agrees with the interview: running exactly while one is pending, else failed or none. */
  predicate Shown(i: Interview, op: Option<Projection>) {
    if i.pending.Some? then op == Some(Projection(i.pending.value.operationId, Running))
    else op.None? || op.value.status.Failed?
  }

  /** When the dispatch accepts the command of an action, in terms of phase and outcomes only. */
  predicate Takes(i: Interview, a: Action) {
    match a
    case Answer => i.phase == Some(AwaitingResponse)
    case Clarify => i.phase == Some(AwaitingResponse)
    case Unknown => i.phase == Some(AwaitingResponse)
    case Skip => i.phase == Some(AwaitingResponse)
    case Supplement => i.phase == Some(AwaitingContinue)
    case Continue => i.phase == Some(AwaitingContinue)
    case EndEarly => exists k :: 0 <= k < |i.questions| && i.questions[k].outcome.Some?
    case Abandon => true
    case Retry => false
  }

  lemma PlansWhenInPhase(i: Interview, c: Command)
    requires ListOk(i) && i.status == Active && IsPlannable(c.body)
    requires IsAnswer(c.body) ==> NonBlank(c.body.text) && c.body.materialId !in MaterialIds(i.questions[i.current - 1].answerMaterial)
    ensures PlanCommand(i, c).Ok? <==> i.phase == Some(PhaseFor(c.body))
  {
    CurrentFound(i);
  }

  lemma DispatchTakes(i: Interview, a: Action, c: Command)
    requires Good(i) && i.status == Active && i.pending.None? && Matches(i, a, c)
    ensures Dispatch(i, c).Ok? <==> Takes(i, a)
  {
    CurrentFound(i);
    if IsPlannable(c.body) {
      PlansWhenInPhase(i, c);
    }
  }

  lemma HandledTakes(i: Interview, a: Action, c: Command)
    requires Good(i) && i.status == Active && Matches(i, a, c)
    ensures Handled(i, c).Ok? <==> i.pending.None? && Takes(i, a)
  {
    if i.pending.None? {
      DispatchTakes(i, a, c);
    }
  }

  /** Something is recorded whenever an interview awaits the next question. */
  lemma ContinueHasOutcome(i: Interview)
    requires Good(i) && i.status == Active && i.phase == Some(AwaitingContinue)
    ensures Takes(i, Action.EndEarly)
  {
    assert i.questions[i.current - 1].outcome.Some?;
  }

  lemma OfferedTakes(i: Interview, op: Option<Projection>, a: Action)
    requires i.phase.Some? && (i.phase == Some(Processing) <==> i.pending.Some?) && Shown(i, op) && a != Retry
    requires i.phase == Some(AwaitingContinue) ==> Takes(i, Action.EndEarly)
    ensures ActiveActions(i, op).Ok?
    ensures a in ActiveActions(i, op).value <==> i.pending.None? && Takes(i, a)
  {
    match i.phase.value {
      case Processing =>
      case AwaitingResponse =>
        assert i.phase == Some(AwaitingResponse);
        var actions := AwaitingResponseActions(i);
        assert actions[0] == Answer && actions[1] == Clarify && actions[2] == Action.Unknown && actions[3] == Skip && actions[|actions| - 1] == Abandon;
        assert a in actions + RetryIf(op) <==> a in actions;
        assert Takes(i, Action.EndEarly) ==> actions[4] == Action.EndEarly;
        match a { case _ => }
      case AwaitingContinue =>
        assert i.phase == Some(AwaitingContinue);
        var actions := [Action.Supplement, Continue, Action.EndEarly, Abandon];
        assert a in actions + RetryIf(op) <==> a in actions;
        match a { case _ => }
    }
  }

  /** The offered actions are exact: the mapping of a reachable active interview succeeds, and an action other
      than retry is offered exactly when the engine accepts the matching commands. */
  lemma OfferedActionsAreExact(i: Interview, op: Option<Projection>, a: Action, c: Command)
    requires Good(i) && i.status == Active && Shown(i, op) && Matches(i, a, c)
    ensures ActiveActions(i, op).Ok?
    ensures a in ActiveActions(i, op).value <==> Handled(i, c).Ok?
  {
    HandledTakes(i, a, c);
    if i.phase == Some(AwaitingContinue) {
      ContinueHasOutcome(i);
    }
    OfferedTakes(i, op, a);
  }

  /** A retry is offered for an active interview exactly when the operation shown failed and can be retried. */
  lemma RetryIsOffered(i: Interview, op: Option<Projection>)
    requires Good(i) && i.status == Active && Shown(i, op)
    ensures ActiveActions(i, op).Ok?
    ensures Retry in ActiveActions(i, op).value <==> op.Some? && op.value.status == Failed(true)
  {
    if i.phase == Some(AwaitingContinue) {
      ContinueHasOutcome(i);
    }
    OfferedTakes(i, op, Abandon);
    assert Retry !in AwaitingResponseActions(i);
  }

  /** An operation that does not agree with the phase is a fault, except that while a response is awaited an
      operation that has not failed hides every action. */
  lemma DisagreeingOperation(i: Interview, op: Option<Projection>)
    requires Good(i) && i.status == Active
    ensures ActiveActions(i, op).Err? <==>
              || (i.phase == Some(Processing) && op != Some(Projection(i.pending.value.operationId, Running)))
              || (i.phase == Some(AwaitingContinue) && op.Some? && !op.value.status.Failed?)
    ensures i.phase == Some(AwaitingResponse) && op.Some? && !op.value.status.Failed? ==> ActiveActions(i, op) == Ok([])
  {
  }

  /** While a report is pending nothing but retry is offered, exactly when the operation shown failed, and the
      engine accepts no user command. */
  lemma ReportPendingOffersNothing(i: Interview, op: Option<Projection>, c: Command)
    requires Good(i) && i.status == ReportPending
    requires op.Some? && op.value.status.Failed? ==> op.value.status.retryable
    ensures ReportPendingActions(i, op).Ok? && forall a :: a in ReportPendingActions(i, op).value ==> a == Retry
    ensures Retry in ReportPendingActions(i, op).value <==> op.Some? && op.value.status.Failed?
    ensures !c.body.CreateInterview? && !c.body.RecordReport? ==> Handled(i, c).Err?
  {
  }
}
