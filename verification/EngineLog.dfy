/** The event log determines the interview, up to its version, phase, pending operation and last activity. */
module EngineLog {
  import opened Basics
  import opened Sequences
  import opened InterviewModel
  import opened Scoring
  import opened Engine
  import opened EngineInvariant

  /** The part of an interview that its events record. */
  function ViewOf(i: Interview): Interview {
    i.(version := 0, phase := None, pending := None, lastActivityAt := 0)
  }

  /** A projection in progress: the view, and when the clarification now being recorded was requested. */
  datatype Folded = Folded(view: Option<Interview>, requestedAt: int)

  function SetQuestion(v: Interview, position: int, q: QuestionState): Interview {
    if 1 <= position <= |v.questions| then v.(questions := v.questions[position - 1 := q]) else v
  }

  function QuestionAt(v: Interview, position: int): QuestionState {
    if 1 <= position <= |v.questions| then v.questions[position - 1] else BlankQuestion(position)
  }

  /** One event applied to the view; `requestedAt` completes a recorded clarification. */
  function ApplyTo(v: Interview, requestedAt: int, e: Event): Interview {
    match e.body
    case InterviewCreated(_, _, _) => v
    case ClarificationRequested(_) => v
    case MaterialSubmitted(id, kind, p, text) =>
      var q := QuestionAt(v, p);
      SetQuestion(v, p, q.(answerMaterial := q.answerMaterial + [AnswerMaterial(id, kind, text, e.occurredAt)]))
    case ClarificationRecorded(id, p, text) =>
      var q := QuestionAt(v, p);
      SetQuestion(v, p, q.(clarifications := q.clarifications + [ClarificationNote(id, text, requestedAt, e.occurredAt)]))
    case FollowUpRecorded(id, p, goal, kind, purpose, classification, text) =>
      var q := QuestionAt(v, p);
      SetQuestion(v, p, q.(followUps := q.followUps + [SystemFollowUp(id, goal, kind, purpose, classification, text, e.occurredAt)]))
    case OutcomeCleared(p) => SetQuestion(v, p, QuestionAt(v, p).(evaluation := None, outcome := None))
    case EvaluationRecorded(p, evaluation) =>
      SetQuestion(v, p, QuestionAt(v, p).(evaluation := Some(evaluation), outcome := Some(evaluation.outcome)))
    case UnevaluatedOutcome(p, outcome) => SetQuestion(v, p, QuestionAt(v, p).(evaluation := None, outcome := Some(outcome)))
    case QuestionFrozen(p) =>
      SetQuestion(v, p, QuestionAt(v, p).(frozen := true)).(current := if p < v.questionCount then p + 1 else p)
    case ReportRequested(kind) =>
      v.(status := ReportPending, pendingReportKind := Some(kind), reportRequestedAt := Some(e.occurredAt))
    case ReportStored(id, kind) =>
      v.(status := if kind == Complete then Completed else EarlyEnded, pendingReportKind := None, reportId := Some(id))
    case InterviewAbandoned(_) => Closed(v)
  }

  function Apply(f: Folded, e: Event): Folded {
    match e.body
    case InterviewCreated(account, count, blueprint) =>
      Folded(Some(Interview(e.interviewId, account, 0, Active, None, count, blueprint, 1,
                            Map(BlankQuestions(), blueprint.questions), None, None, None, None, e.occurredAt, 0)), 0)
    case ClarificationRequested(_) => f.(requestedAt := e.occurredAt)
    case _ => if f.view.None? then f else f.(view := Some(ApplyTo(f.view.value, f.requestedAt, e)))
  }

  function Fold(f: Folded, log: seq<Event>): Folded
    decreases |log|
  {
    if log == [] then f else Fold(Apply(f, log[0]), log[1..])
  }

  /** The interview as its log tells it. */
  function Rebuild(log: seq<Event>): Option<Interview> {
    Fold(Folded(None, 0), log).view
  }

  lemma {:induction false} FoldAppend(f: Folded, a: seq<Event>, b: seq<Event>)
    ensures Fold(f, a + b) == Fold(Fold(f, a), b)
    decreases |a|
  {
    if a == [] {
      assert a + b == b;
    } else {
      assert (a + b)[1..] == a[1..] + b;
      FoldAppend(Apply(f, a[0]), a[1..], b);
    }
  }

  lemma FoldOne(f: Folded, e: Event)
    ensures Fold(f, [e]) == Apply(f, e)
  {
  }

  lemma FoldTwo(f: Folded, d: Event, e: Event)
    ensures Fold(f, [d, e]) == Apply(Apply(f, d), e)
  {
    assert [d, e] == [d] + [e];
    FoldAppend(f, [d], [e]);
  }

  /** The events of a step rebuild its result from its start. */
  ghost predicate Explains(i: Interview, t: Transition) {
    forall requestedAt: int {:trigger Folded(Some(ViewOf(i)), requestedAt)} ::
      Fold(Folded(Some(ViewOf(i)), requestedAt), t.events).view == Some(ViewOf(t.interview))
  }

  lemma OneExplains(i: Interview, j: Interview, e: Event)
    requires !e.body.InterviewCreated? && !e.body.ClarificationRequested?
    requires forall requestedAt: int {:trigger ApplyTo(ViewOf(i), requestedAt, e)} :: ApplyTo(ViewOf(i), requestedAt, e) == ViewOf(j)
    ensures Explains(i, Transition(j, [e]))
  {
    forall requestedAt: int ensures Fold(Folded(Some(ViewOf(i)), requestedAt), [e]).view == Some(ViewOf(j)) {
      FoldOne(Folded(Some(ViewOf(i)), requestedAt), e);
      assert ApplyTo(ViewOf(i), requestedAt, e) == ViewOf(j);
    }
  }

  lemma CreateExplains(c: Command)
    requires c.body.CreateInterview? && Create(c).Ok?
    ensures Rebuild(Create(c).value.events) == Some(ViewOf(Create(c).value.interview))
  {
    FoldOne(Folded(None, 0), Create(c).value.events[0]);
  }

  /** `q` is the current question, and replacing it changes nothing else. */
  ghost predicate AtCurrent(i: Interview, q: QuestionState) {
    1 <= i.current <= |i.questions| && i.questions[i.current - 1] == q
  }

  ghost predicate ReplacesAt(i: Interview, q: QuestionState) {
    1 <= i.current <= |i.questions| && Replace(i.questions, q) == i.questions[i.current - 1 := q]
  }

  lemma CurrentIs(i: Interview) returns (q: QuestionState)
    requires ListOk(i)
    ensures AtCurrent(i, q) && CurrentQuestion(i) == Ok(q)
    ensures forall r: QuestionState {:trigger ReplacesAt(i, r)} :: r.position == q.position ==> ReplacesAt(i, r)
  {
    CurrentFound(i);
    q := i.questions[i.current - 1];
    assert QuestionOk(i, i.current - 1);
    forall r: QuestionState | r.position == q.position ensures ReplacesAt(i, r) {
      ReplaceAt(i, r);
    }
  }

  lemma UnevaluatedCore(i: Interview, q: QuestionState, outcome: Outcome, operationId: Id, at: int)
    requires AtCurrent(i, q) && ReplacesAt(i, q.(evaluation := None, outcome := Some(outcome)))
    ensures Explains(i, Transition(WithOutcome(i, q, outcome, at), [EventOn(i, operationId, at, UnevaluatedOutcome(i.current, outcome))]))
  {
    OneExplains(i, WithOutcome(i, q, outcome, at), EventOn(i, operationId, at, UnevaluatedOutcome(i.current, outcome)));
  }

  lemma UnevaluatedExplains(i: Interview, c: Command, outcome: Outcome)
    requires ListOk(i)
    ensures RecordUnevaluated(i, c, outcome).Ok? ==> Explains(i, RecordUnevaluated(i, c, outcome).value)
  {
    var q := CurrentIs(i);
    assert ReplacesAt(i, q.(evaluation := None, outcome := Some(outcome)));
    UnevaluatedCore(i, q, outcome, c.operationId, c.occurredAt);
  }

  lemma FrozenApplies(i: Interview, q: QuestionState, e: Event, requestedAt: int)
    requires AtCurrent(i, q) && e.body == QuestionFrozen(i.current)
    ensures Apply(Folded(Some(ViewOf(i)), requestedAt), e)
            == Folded(Some(Viewed(i, q.(frozen := true)).(current := if i.current < i.questionCount then i.current + 1 else i.current)), requestedAt)
  {
  }

  lemma ContinueCore(i: Interview, q: QuestionState, at: int, e: Event, d: Event)
    requires AtCurrent(i, q) && ReplacesAt(i, q.(frozen := true)) && i.current <= i.questionCount
    requires i.status == Active && i.pendingReportKind.None? && i.reportRequestedAt.None?
    requires e.body == QuestionFrozen(i.current) && d.body == ReportRequested(Complete) && d.occurredAt == at
    ensures Explains(i, Transition(Continued(i, q, at), [e] + if i.current == i.questionCount then [d] else []))
  {
    forall requestedAt: int
      ensures Fold(Folded(Some(ViewOf(i)), requestedAt), [e] + if i.current == i.questionCount then [d] else []).view
              == Some(ViewOf(Continued(i, q, at)))
    {
      var f := Folded(Some(ViewOf(i)), requestedAt);
      FrozenApplies(i, q, e, requestedAt);
      if i.current == i.questionCount {
        assert [e] + [d] == [e, d];
        FoldTwo(f, e, d);
      } else {
        assert [e] + [] == [e];
        FoldOne(f, e);
      }
    }
  }

  lemma ContinueExplains(i: Interview, c: Command)
    requires Good(i)
    ensures Continue(i, c).Ok? ==> Explains(i, Continue(i, c).value)
  {
    if Continue(i, c).Ok? {
      var q := CurrentIs(i);
      assert ReplacesAt(i, q.(frozen := true));
      ContinueCore(i, q, c.occurredAt, EventOn(i, c.operationId, c.occurredAt, QuestionFrozen(i.current)),
                   EventOn(i, c.operationId, c.occurredAt, ReportRequested(Complete)));
    }
  }

  lemma EndExplains(i: Interview, c: Command)
    ensures End(i, c).Ok? ==> Explains(i, End(i, c).value)
  {
    if End(i, c).Ok? {
      OneExplains(i, End(i, c).value.interview, End(i, c).value.events[0]);
    }
  }

  lemma AbandonExplains(i: Interview, c: Command, reason: AbandonReason)
    ensures Explains(i, Abandon(i, c, reason))
  {
    OneExplains(i, Abandon(i, c, reason).interview, Abandon(i, c, reason).events[0]);
  }

  lemma ReportExplains(i: Interview, c: Command)
    requires Good(i) && c.body.RecordReport?
    ensures Report(i, c).Ok? ==> Explains(i, Report(i, c).value)
  {
    if Report(i, c).Ok? {
      OneExplains(i, Report(i, c).value.interview, Report(i, c).value.events[0]);
    }
  }

  ghost predicate ResultExplained(i: Interview, r: CommandResult) {
    match r
    case Moved(t) => Explains(i, t)
    case Planned(p) => ViewOf(p.interview) == ViewOf(i)
  }

  lemma DispatchExplains(i: Interview, c: Command)
    requires Good(i) && !c.body.CreateInterview?
    ensures Dispatch(i, c).Ok? ==> ResultExplained(i, Dispatch(i, c).value)
  {
    match c.body {
      case MarkUnknown => UnevaluatedExplains(i, c, Unknown);
      case SkipQuestion => UnevaluatedExplains(i, c, Skipped);
      case ContinueInterview => ContinueExplains(i, c);
      case EndEarly => EndExplains(i, c);
      case AbandonInterview => AbandonExplains(i, c, ByUser);
      case ExpireInterview => AbandonExplains(i, c, ByExpiry);
      case RecordReport(_, _) => ReportExplains(i, c);
      case _ =>
    }
  }

  /** A handled command: its events account for all that changed, and a plan changes nothing they record. */
  lemma HandledExplains(i: Interview, c: Command)
    requires Good(i) && !c.body.CreateInterview?
    ensures Handled(i, c).Ok? ==> ResultExplained(i, Handled(i, c).value)
  {
    DispatchExplains(i, c);
    AbandonExplains(i, c, ByExpiry);
  }

  // ---------- completions ----------

  /** The view with its current question replaced. */
  function Viewed(i: Interview, q: QuestionState): Interview
    requires 1 <= i.current <= |i.questions|
  {
    ViewOf(i).(questions := i.questions[i.current - 1 := q])
  }

  lemma FinishedView(i: Interview, q: QuestionState, phase: Phase)
    requires ReplacesAt(i, q)
    ensures ViewOf(Finished(i, q, phase)) == Viewed(i, q)
  {
  }

  lemma ClarificationApplies(i: Interview, q: QuestionState, d: Event, e: Event, id: Id, text: string, requestedAt: int)
    requires AtCurrent(i, q) && d.body == ClarificationRequested(i.current) && e.body == ClarificationRecorded(id, i.current, text)
    ensures Fold(Folded(Some(ViewOf(i)), requestedAt), [d, e]).view
            == Some(Viewed(i, q.(clarifications := q.clarifications + [ClarificationNote(id, text, d.occurredAt, e.occurredAt)])))
  {
    FoldTwo(Folded(Some(ViewOf(i)), requestedAt), d, e);
  }

  lemma ClarificationExplains(i: Interview, p: Plan, c: Completion)
    requires ListOk(i) && p.position == i.current && c.body.RecordClarification?
    ensures CompleteClarification(i, p, c).Ok? ==> Explains(i, CompleteClarification(i, p, c).value)
  {
    if CompleteClarification(i, p, c).Ok? {
      var q := CurrentIs(i);
      var t := CompleteClarification(i, p, c).value;
      assert ReplacesAt(i, Clarified(q, p, c));
      FinishedView(i, Clarified(q, p, c), AwaitingResponse);
      forall requestedAt: int ensures Fold(Folded(Some(ViewOf(i)), requestedAt), t.events).view == Some(ViewOf(t.interview)) {
        ClarificationApplies(i, q, t.events[0], t.events[1], c.body.messageId, c.body.text, requestedAt);
      }
    }
  }

  function WithMaterial(q: QuestionState, m: AnswerMaterial): QuestionState {
    q.(answerMaterial := q.answerMaterial + [m])
  }

  lemma MaterialApplies(i: Interview, q: QuestionState, p: Plan, requestedAt: int)
    requires AtCurrent(i, q) && p.AnswerPlan? && p.position == i.current
    ensures Apply(Folded(Some(ViewOf(i)), requestedAt), MaterialEvent(i, p)) == Folded(Some(Viewed(i, WithMaterial(q, p.material))), requestedAt)
  {
  }

  lemma ViewedTwice(i: Interview, q: QuestionState, r: QuestionState)
    requires 1 <= i.current <= |i.questions|
    ensures SetQuestion(Viewed(i, q), i.current, r) == Viewed(i, r) && QuestionAt(Viewed(i, q), i.current) == q
  {
    assert i.questions[i.current - 1 := q][i.current - 1 := r] == i.questions[i.current - 1 := r];
  }

  lemma EvaluationApplies(i: Interview, q: QuestionState, e: Event, evaluation: QuestionEvaluation, requestedAt: int)
    requires 1 <= i.current <= |i.questions| && e.body == EvaluationRecorded(i.current, evaluation)
    ensures Apply(Folded(Some(Viewed(i, q)), requestedAt), e)
            == Folded(Some(Viewed(i, q.(evaluation := Some(evaluation), outcome := Some(evaluation.outcome)))), requestedAt)
  {
    ViewedTwice(i, q, q.(evaluation := Some(evaluation), outcome := Some(evaluation.outcome)));
  }

  lemma EvaluationExplains(i: Interview, p: Plan, c: Completion)
    requires ListOk(i) && p.AnswerPlan? && p.position == i.current && c.body.RecordEvaluation?
    ensures CompleteEvaluation(i, p, c).Ok? ==> Explains(i, CompleteEvaluation(i, p, c).value)
  {
    if CompleteEvaluation(i, p, c).Ok? {
      var q := CurrentIs(i);
      var t := CompleteEvaluation(i, p, c).value;
      assert ReplacesAt(i, EvaluatedWith(q, p.material, c.body.evaluation));
      FinishedView(i, EvaluatedWith(q, p.material, c.body.evaluation), AwaitingContinue);
      forall requestedAt: int ensures Fold(Folded(Some(ViewOf(i)), requestedAt), t.events).view == Some(ViewOf(t.interview)) {
        MaterialApplies(i, q, p, requestedAt);
        EvaluationApplies(i, WithMaterial(q, p.material), t.events[1], Evaluated(c.body.evaluation), requestedAt);
        FoldTwo(Folded(Some(ViewOf(i)), requestedAt), t.events[0], t.events[1]);
      }
    }
  }

  lemma ClearingApplies(i: Interview, q: QuestionState, e: Event, requestedAt: int)
    requires 1 <= i.current <= |i.questions| && e.body == OutcomeCleared(i.current)
    ensures Apply(Folded(Some(Viewed(i, q)), requestedAt), e) == Folded(Some(Viewed(i, q.(evaluation := None, outcome := None))), requestedAt)
  {
    ViewedTwice(i, q, q.(evaluation := None, outcome := None));
  }

  lemma FollowUpApplies(i: Interview, q: QuestionState, c: Completion, e: Event, requestedAt: int)
    requires 1 <= i.current <= |i.questions| && c.body.RecordFollowUp? && e.occurredAt == c.occurredAt
    requires var b := c.body; e.body == FollowUpRecorded(b.messageId, i.current, b.goalId, b.kind, b.purpose, b.classification, b.text)
    ensures var b := c.body;
            Apply(Folded(Some(Viewed(i, q)), requestedAt), e)
            == Folded(Some(Viewed(i, q.(followUps := q.followUps
                 + [SystemFollowUp(b.messageId, b.goalId, b.kind, b.purpose, b.classification, b.text, c.occurredAt)]))), requestedAt)
  {
    var b := c.body;
    ViewedTwice(i, q, q.(followUps := q.followUps
      + [SystemFollowUp(b.messageId, b.goalId, b.kind, b.purpose, b.classification, b.text, c.occurredAt)]));
  }

  lemma FollowUpFolds(i: Interview, q: QuestionState, p: Plan, c: Completion, requestedAt: int)
    requires AtCurrent(i, q) && p.AnswerPlan? && p.position == i.current && c.body.RecordFollowUp?
    ensures Fold(Folded(Some(ViewOf(i)), requestedAt), FollowUpEvents(i, q, p, c)).view == Some(Viewed(i, FollowedUp(q, p.material, c)))
  {
    var f, m, b := Folded(Some(ViewOf(i)), requestedAt), WithMaterial(q, p.material), c.body;
    var material := MaterialEvent(i, p);
    var followUp := EventOn(i, c.operationId, c.occurredAt,
                            FollowUpRecorded(b.messageId, p.position, b.goalId, b.kind, b.purpose, b.classification, b.text));
    MaterialApplies(i, q, p, requestedAt);
    if q.evaluation.Some? || q.outcome.Some? {
      var clearing := EventOn(i, p.operationId, c.occurredAt, OutcomeCleared(p.position));
      assert FollowUpEvents(i, q, p, c) == [material] + [clearing, followUp];
      ClearingApplies(i, m, clearing, requestedAt);
      FollowUpApplies(i, m.(evaluation := None, outcome := None), c, followUp, requestedAt);
      FoldAppend(f, [material], [clearing, followUp]);
      FoldOne(f, material);
      FoldTwo(Apply(f, material), clearing, followUp);
    } else {
      assert FollowUpEvents(i, q, p, c) == [material, followUp];
      FollowUpApplies(i, m, c, followUp, requestedAt);
      FoldTwo(f, material, followUp);
    }
  }

  lemma FollowUpExplains(i: Interview, p: Plan, c: Completion)
    requires ListOk(i) && p.AnswerPlan? && p.position == i.current && c.body.RecordFollowUp?
    ensures CompleteFollowUp(i, p, c).Ok? ==> Explains(i, CompleteFollowUp(i, p, c).value)
  {
    if CompleteFollowUp(i, p, c).Ok? {
      var q := CurrentIs(i);
      var t := CompleteFollowUp(i, p, c).value;
      assert ReplacesAt(i, FollowedUp(q, p.material, c));
      FinishedView(i, FollowedUp(q, p.material, c), AwaitingResponse);
      forall requestedAt: int ensures Fold(Folded(Some(ViewOf(i)), requestedAt), t.events).view == Some(ViewOf(t.interview)) {
        FollowUpFolds(i, q, p, c, requestedAt);
      }
    }
  }

  lemma CompleteExplains(i: Interview, p: Plan, c: Completion)
    requires Good(i) && PlanFits(i, p)
    ensures CompleteOperation(i, p, c).Ok? ==> Explains(i, CompleteOperation(i, p, c).value)
  {
    if CompleteOperation(i, p, c).Ok? {
      if Expired(i, c.occurredAt) {
        OneExplains(i, Closed(i), CompleteOperation(i, p, c).value.events[0]);
      } else if p.ClarificationPlan? {
        ClarificationExplains(i, p, c);
      } else if c.body.RecordFollowUp? {
        FollowUpExplains(i, p, c);
      } else {
        EvaluationExplains(i, p, c);
      }
    }
  }
}
