/** What every reachable interview satisfies, and that each engine operation keeps it. */
module EngineInvariant {
  import opened Basics
  import opened Sequences
  import opened TextOrder
  import opened InterviewModel
  import opened Scoring
  import opened Engine

  // ---------- one question ----------

  /** The follow-up names a goal of its kind, and its purpose fits its kind and the response. */
  ghost predicate FollowUpFits(f: SystemFollowUp, s: Question) {
    && FindGoal(s.followUpGoals, f.goalId).Some? && FindGoal(s.followUpGoals, f.goalId).value.kind == f.kind
    && PurposeKind(f.purpose) == f.kind
    && ((f.purpose == IrrelevantResponseClarification) <==> (f.classification == Irrelevant))
    && NonBlank(f.text)
  }

  /** At most one follow-up per kind, with distinct goals. */
  ghost predicate FollowUpsOk(q: QuestionState, s: Question) {
    && NoDup(FollowUpKinds(q.followUps)) && NoDup(FollowUpGoalIds(q.followUps))
    && forall f :: f in q.followUps ==> FollowUpFits(f, s)
  }

  /** Distinct nonblank material; a main answer can only come first; no more follow-up answers than follow-ups. */
  ghost predicate MaterialOk(q: QuestionState) {
    && NoDup(MaterialIds(q.answerMaterial))
    && (forall m :: m in q.answerMaterial ==> NonBlank(m.text))
    && (forall k :: 0 < k < |q.answerMaterial| ==> q.answerMaterial[k].kind != MainAnswer)
    && FollowUpAnswers(q) <= |q.followUps|
  }

  /** An evaluation decides the outcome and was acceptable; without one the question was skipped or unknown. */
  ghost predicate OutcomeOk(q: QuestionState, s: Question) {
    && (q.frozen ==> q.outcome.Some?)
    && match q.evaluation
       case None => q.outcome == None || q.outcome == Some(Unknown) || q.outcome == Some(Skipped)
       case Some(e) =>
         && q.outcome == Some(e.outcome) && e.outcome == OutcomeOf(e.classification, e.rubricItems) && q.answerMaterial != []
         && Acceptable(s.rubric, e.classification, e.rubricItems, ToSet(MaterialIds(q.answerMaterial)))
         && (e.classification == Irrelevant ==> HasClarified(q))
  }

  ghost predicate Kept(q: QuestionState, s: Question) {
    && FollowUpsOk(q, s) && MaterialOk(q) && OutcomeOk(q, s)
    && forall n :: n in q.clarifications ==> NonBlank(n.text)
  }

  ghost predicate Fresh(q: QuestionState) {
    q.answerMaterial == [] && q.followUps == []
  }

  /** Material that may join the question: new, nonblank, and of the kind the question calls for. */
  ghost predicate Joins(q: QuestionState, m: AnswerMaterial) {
    && NonBlank(m.text) && m.id !in MaterialIds(q.answerMaterial)
    && (m.kind == MainAnswer ==> q.answerMaterial == [])
    && (m.kind == FollowUpAnswer ==> Unanswered(q))
  }

  lemma KeptBlank(position: int, s: Question)
    ensures Kept(BlankQuestion(position), s)
  {
  }

  lemma KeptOutcome(q: QuestionState, s: Question, outcome: Outcome)
    requires Kept(q, s) && (outcome == Unknown || outcome == Skipped)
    ensures Kept(q.(evaluation := None, outcome := Some(outcome)), s)
  {
  }

  lemma KeptFrozen(q: QuestionState, s: Question)
    requires Kept(q, s) && q.outcome.Some?
    ensures Kept(q.(frozen := true), s)
  {
  }

  lemma KeptClarified(q: QuestionState, s: Question, p: Plan, c: Completion)
    requires Kept(q, s) && c.body.RecordClarification? && NonBlank(c.body.text)
    ensures Kept(Clarified(q, p, c), s)
  {
  }

  lemma MaterialJoins(q: QuestionState, m: AnswerMaterial, after: QuestionState)
    requires MaterialOk(q) && Joins(q, m)
    requires after.answerMaterial == q.answerMaterial + [m] && |after.followUps| >= |q.followUps|
    ensures MaterialOk(after)
    ensures MaterialIds(after.answerMaterial) == MaterialIds(q.answerMaterial) + [m.id]
    ensures FollowUpAnswers(after) == FollowUpAnswers(q) + if m.kind == FollowUpAnswer then 1 else 0
  {
    assert MaterialIds(after.answerMaterial) == MaterialIds(q.answerMaterial) + [m.id];
    NoDupSnoc(MaterialIds(q.answerMaterial), m.id);
    FilterAppend(IsFollowUpAnswer(), q.answerMaterial, [m]);
  }

  lemma KeptFollowUp(q: QuestionState, s: Question, m: AnswerMaterial, c: Completion)
    requires Kept(q, s) && !q.frozen && Joins(q, m)
    requires c.body.RecordFollowUp? && NonBlank(c.body.text) && CheckFollowUp(s, q, c.body).Holds?
    ensures Kept(FollowedUp(q, m, c), s) && Unanswered(FollowedUp(q, m, c))
  {
    var after := FollowedUp(q, m, c);
    MaterialJoins(q, m, after);
    assert FollowUpKinds(after.followUps) == FollowUpKinds(q.followUps) + [c.body.kind];
    assert FollowUpGoalIds(after.followUps) == FollowUpGoalIds(q.followUps) + [c.body.goalId];
    NoDupSnoc(FollowUpKinds(q.followUps), c.body.kind);
    NoDupSnoc(FollowUpGoalIds(q.followUps), c.body.goalId);
  }

  lemma KeptEvaluation(q: QuestionState, s: Question, m: AnswerMaterial, e: EvaluationInput)
    requires Kept(q, s) && !q.frozen && Joins(q, m)
    requires CheckEvaluation(s, q, q.answerMaterial + [m], e).Holds?
    ensures Kept(EvaluatedWith(q, m, e), s)
  {
    MaterialJoins(q, m, EvaluatedWith(q, m, e));
  }

  /** The material of a plan joins its question. */
  lemma PlannedMaterialJoins(q: QuestionState, c: Command)
    requires IsAnswer(c.body) && NonBlank(c.body.text) && c.body.materialId !in MaterialIds(q.answerMaterial)
    requires c.body.SubmitAnswer? ==> Fresh(q) || Unanswered(q)
    ensures Joins(q, MaterialFor(c, q))
  {
  }

  // ---------- the list of questions ----------

  ghost predicate QuestionOk(i: Interview, p: nat) {
    && p < |i.questions| && p < |i.blueprint.questions|
    && i.questions[p].position == p + 1
    && Kept(i.questions[p], i.blueprint.questions[p].question)
    && (p + 1 < i.current ==> i.questions[p].frozen)
    && (p + 1 > i.current ==> i.questions[p] == BlankQuestion(p + 1))
  }

  /** Earlier questions are frozen with outcomes, later ones are untouched, all are in order. */
  ghost predicate ListOk(i: Interview) {
    && ValidBlueprint(i.blueprint, i.questionCount)
    && |i.questions| == i.questionCount && 1 <= i.current <= i.questionCount
    && forall p {:trigger QuestionOk(i, p)} :: 0 <= p < |i.questions| ==> QuestionOk(i, p)
  }

  function Snapshot(i: Interview, p: nat): Question
    requires p < |i.blueprint.questions|
  {
    i.blueprint.questions[p].question
  }

  lemma CurrentFound(i: Interview)
    requires ListOk(i)
    ensures CurrentQuestion(i) == Ok(i.questions[i.current - 1])
    ensures |i.blueprint.questions| == |i.questions| && CurrentSnapshot(i) == Ok(Snapshot(i, i.current - 1))
    ensures Kept(i.questions[i.current - 1], Snapshot(i, i.current - 1))
  {
    assert QuestionOk(i, i.current - 1);
    assert ItemFits(i.blueprint.questions, i.current - 1);
  }

  lemma SameList(i: Interview, j: Interview)
    requires ListOk(i) && j.questions == i.questions && j.blueprint == i.blueprint && j.questionCount == i.questionCount && j.current == i.current
    ensures ListOk(j)
  {
    forall p | 0 <= p < |j.questions| ensures QuestionOk(j, p) {
      assert QuestionOk(i, p);
    }
  }

  lemma ReplaceAt(i: Interview, q: QuestionState)
    requires ListOk(i) && q.position == i.current
    ensures Replace(i.questions, q) == i.questions[i.current - 1 := q]
  {
    forall p | 0 <= p < |i.questions| ensures Replace(i.questions, q)[p] == i.questions[i.current - 1 := q][p] {
      assert QuestionOk(i, p);
    }
  }

  lemma ReplacedQuestion(i: Interview, j: Interview, q: QuestionState, p: nat)
    requires QuestionOk(i, p) && 1 <= i.current <= |i.questions|
    requires p + 1 == i.current ==> q.position == i.current && Kept(q, Snapshot(i, p))
    requires j.questions == i.questions[i.current - 1 := q] && j.blueprint == i.blueprint
    requires j.current == i.current || (q.frozen && j.current == i.current + 1)
    ensures QuestionOk(j, p)
  {
  }

  /** The current question is replaced, and perhaps frozen and left behind. */
  lemma ReplacedList(i: Interview, j: Interview, q: QuestionState)
    requires ListOk(i) && q.position == i.current && Kept(q, Snapshot(i, i.current - 1))
    requires j.questions == Replace(i.questions, q) && j.blueprint == i.blueprint && j.questionCount == i.questionCount
    requires j.current == i.current || (q.frozen && j.current == i.current + 1 <= i.questionCount)
    ensures j.questions == i.questions[i.current - 1 := q]
    ensures ListOk(j)
  {
    ReplaceAt(i, q);
    forall p | 0 <= p < |j.questions| ensures QuestionOk(j, p) {
      assert QuestionOk(i, p);
      ReplacedQuestion(i, j, q, p);
    }
  }

  // ---------- status, phase and current question ----------

  ghost predicate StatusOk(i: Interview) {
    && (i.phase.Some? <==> i.status == Active)
    && (i.phase == Some(Processing) <==> i.pending.Some?)
    && match i.status
       case Active => i.pendingReportKind.None? && i.reportRequestedAt.None? && i.reportId.None?
       case ReportPending =>
         i.pendingReportKind.Some? && i.reportRequestedAt.Some? && i.reportRequestedAt.value <= i.lastActivityAt && i.reportId.None?
       case Completed => i.pendingReportKind.None? && i.reportRequestedAt.Some? && i.reportId.Some?
       case EarlyEnded => i.pendingReportKind.None? && i.reportRequestedAt.Some? && i.reportId.Some?
       case Abandoned => i.pendingReportKind.None? && i.reportRequestedAt.None? && i.reportId.None?
       case Deleting => false
  }

  ghost predicate PendingOk(i: Interview) {
    i.pending.Some? ==>
      && i.pending.value.previousPhase != Processing
      && i.pending.value.questionPosition == i.current
      && i.pending.value.acceptedAt == i.lastActivityAt
      && (i.pending.value.operation == QuestionClarifying ==> i.pending.value.previousPhase == AwaitingResponse)
  }

  /** The phase of an active interview, or the one it returns to when its operation is cancelled. */
  function EffectivePhase(i: Interview): Option<Phase> {
    if i.pending.Some? then Some(i.pending.value.previousPhase) else i.phase
  }

  /** The current question agrees with the phase; reports find what they need. */
  ghost predicate CurrentOk(i: Interview) {
    1 <= i.current <= |i.questions| &&
    var q := i.questions[i.current - 1];
    && (EffectivePhase(i) == Some(AwaitingResponse) ==>
          !q.frozen && q.outcome.None? && q.evaluation.None? && (Fresh(q) || Unanswered(q)))
    && (EffectivePhase(i) == Some(AwaitingContinue) ==> !q.frozen && q.outcome.Some?)
    && (i.pendingReportKind == Some(Complete) || i.status == Completed ==> q.frozen && i.current == i.questionCount)
    && (i.pendingReportKind == Some(Incomplete) || i.status == EarlyEnded ==>
          !q.frozen && exists k :: 0 <= k < |i.questions| && i.questions[k].outcome.Some?)
  }

  /** The inductive invariant of every reachable interview. */
  ghost predicate Good(i: Interview) {
    ListOk(i) && StatusOk(i) && PendingOk(i) && CurrentOk(i)
  }

  /** The outstanding plan is the one the interview contains. */
  ghost predicate PlanFits(i: Interview, p: Plan) {
    && 1 <= i.current <= |i.questions| && i.pending.Some?
    && IsPlannable(p.command.body)
    && p.command.interviewId == i.id && p.command.expectedVersion + 1 == i.version
    && i.pending.value.operationId == p.command.operationId
    && i.pending.value.operation == KindFor(p.command.body)
    && i.pending.value.previousPhase == PhaseFor(p.command.body)
    && (IsAnswer(p.command.body) ==>
          NonBlank(p.command.body.text) && p.command.body.materialId !in MaterialIds(i.questions[i.current - 1].answerMaterial))
    && p == PlanOf(i, p.command, i, i.lastActivityAt, i.questions[i.current - 1])
  }

  ghost predicate PlanOk(i: Interview, plan: Option<Plan>) {
    (plan.Some? <==> i.pending.Some?) && (plan.Some? ==> PlanFits(i, plan.value))
  }

  // ---------- every operation keeps the invariant ----------

  lemma CreatedQuestion(c: Command, p: nat)
    requires c.body.CreateInterview? && ValidItems(c.body.blueprint.questions) && p < |c.body.blueprint.questions|
    ensures QuestionOk(Created(c), p)
  {
    assert ItemFits(c.body.blueprint.questions, p);
    KeptBlank(p + 1, Snapshot(Created(c), p));
  }

  lemma CreatedList(c: Command)
    requires c.body.CreateInterview? && ValidBlueprint(c.body.blueprint, c.body.questionCount)
    ensures ListOk(Created(c)) && Created(c).questions[0] == BlankQuestion(1)
  {
    var i := Created(c);
    forall p | 0 <= p < |i.questions| ensures QuestionOk(i, p) {
      CreatedQuestion(c, p);
    }
    assert QuestionOk(i, 0);
  }

  lemma CreateGood(c: Command)
    requires c.body.CreateInterview? && Create(c).Ok?
    ensures Good(Created(c)) && PlanOk(Created(c), None) && Create(c).value.interview == Created(c)
  {
    CreatedList(c);
  }

  /** The result of a command: a good next interview at the next version, with a fitting plan or none. */
  ghost predicate GoodResult(i: Interview, r: CommandResult) {
    match r
    case Moved(t) => Good(t.interview) && t.interview.pending.None? && t.interview.version == i.version + 1
    case Planned(p) => Good(p.interview) && PlanFits(p.interview, p) && p.interview.version == i.version + 1 && i.pending.None?
  }

  lemma AcceptGood(i: Interview, c: Command, j: Interview, at: int)
    requires Good(i) && i.pending.None? && IsPlannable(c.body) && i.phase == Some(PhaseFor(c.body))
    requires j.(version := i.version) == WithPending(i, c, at)
    ensures Good(j)
  {
    SameList(i, j);
  }

  lemma PlanMade(i: Interview, c: Command, j: Interview, at: int)
    requires 1 <= i.current <= |i.questions| && CurrentQuestion(i) == Ok(i.questions[i.current - 1])
    requires IsPlannable(c.body) && PlanChecks(i, c).Ok?
    requires j.(version := i.version) == WithPending(i, c, at)
    requires c.interviewId == i.id && j.version == c.expectedVersion + 1
    ensures i.phase == Some(PhaseFor(c.body))
    ensures PlanFits(j, PlanOf(i, c, j, at, PlanChecks(i, c).value)) && PlanOf(i, c, j, at, PlanChecks(i, c).value).interview == j
  {
  }

  lemma PlanCommandGood(i: Interview, c: Command)
    requires Good(i) && i.pending.None? && IsPlannable(c.body) && c.interviewId == i.id && c.expectedVersion == i.version
    ensures PlanCommand(i, c).Ok? ==> GoodResult(i, Planned(PlanCommand(i, c).value))
  {
    if PlanCommand(i, c).Ok? {
      CurrentFound(i);
      PlanMade(i, c, Accepted(i, c, c.occurredAt), c.occurredAt);
      AcceptGood(i, c, Accepted(i, c, c.occurredAt), c.occurredAt);
    }
  }

  lemma RetryGood(i: Interview, c: Command, at: int)
    requires Good(i) && IsPlannable(c.body)
    ensures RetryOperation(i, c, at).Ok? ==>
              Good(RetryOperation(i, c, at).value.interview) && PlanFits(RetryOperation(i, c, at).value.interview, RetryOperation(i, c, at).value)
  {
    if RetryOperation(i, c, at).Ok? {
      CurrentFound(i);
      PlanMade(i, c, WithPending(i, c, at), at);
      AcceptGood(i, c, WithPending(i, c, at), at);
    }
  }

  lemma UnevaluatedGood(i: Interview, c: Command, outcome: Outcome)
    requires Good(i) && i.pending.None? && (outcome == Unknown || outcome == Skipped)
    ensures RecordUnevaluated(i, c, outcome).Ok? ==> GoodResult(i, Moved(RecordUnevaluated(i, c, outcome).value))
  {
    if RecordUnevaluated(i, c, outcome).Ok? {
      CurrentFound(i);
      var q := i.questions[i.current - 1];
      KeptOutcome(q, Snapshot(i, i.current - 1), outcome);
      ReplacedList(i, WithOutcome(i, q, outcome, c.occurredAt), q.(evaluation := None, outcome := Some(outcome)));
    }
  }

  lemma ContinuedList(i: Interview, q: QuestionState, at: int)
    requires ListOk(i) && q == i.questions[i.current - 1] && q.outcome.Some?
    ensures ListOk(Continued(i, q, at)) && Continued(i, q, at).questions == i.questions[i.current - 1 := q.(frozen := true)]
  {
    CurrentFound(i);
    KeptFrozen(q, Snapshot(i, i.current - 1));
    assert QuestionOk(i, i.current - 1);
    ReplacedList(i, Continued(i, q, at), q.(frozen := true));
  }

  lemma NextIsBlank(i: Interview)
    requires ListOk(i) && i.current < i.questionCount
    ensures i.questions[i.current] == BlankQuestion(i.current + 1)
  {
    assert QuestionOk(i, i.current);
  }

  lemma ContinuedGood(i: Interview, q: QuestionState, at: int)
    requires Good(i) && i.pending.None? && i.status == Active && q == i.questions[i.current - 1] && q.outcome.Some?
    ensures Good(Continued(i, q, at)) && Continued(i, q, at).pending.None?
  {
    ContinuedList(i, q, at);
    if i.current < i.questionCount {
      NextIsBlank(i);
    }
  }

  lemma ContinueGood(i: Interview, c: Command)
    requires Good(i) && i.pending.None?
    ensures Continue(i, c).Ok? ==> GoodResult(i, Moved(Continue(i, c).value))
  {
    if Continue(i, c).Ok? {
      CurrentFound(i);
      ContinuedGood(i, i.questions[i.current - 1], c.occurredAt);
    }
  }

  lemma EndGood(i: Interview, c: Command)
    requires Good(i) && i.pending.None?
    ensures End(i, c).Ok? ==> GoodResult(i, Moved(End(i, c).value))
  {
    if End(i, c).Ok? {
      var j := EndedEarly(i, c.occurredAt);
      SameList(i, j);
      NotFrozen(i);
      assert !j.questions[j.current - 1].frozen;
      var k :| 0 <= k < |i.questions| && i.questions[k].outcome.Some?;
      assert j.questions[k].outcome.Some?;
    }
  }

  lemma ClosedGood(i: Interview, version: int)
    requires Good(i) && i.status == Active
    ensures Good(Closed(i).(version := version))
  {
    SameList(i, Closed(i).(version := version));
  }

  lemma ReportedGood(i: Interview, reportId: Id, kind: ReportKind)
    requires Good(i) && i.status == ReportPending && i.pendingReportKind == Some(kind)
    ensures Good(Reported(i, reportId, kind))
  {
    SameList(i, Reported(i, reportId, kind));
  }

  lemma ReportGood(i: Interview, c: Command)
    requires Good(i) && c.body.RecordReport?
    ensures Report(i, c).Ok? ==> GoodResult(i, Moved(Report(i, c).value))
  {
    if Report(i, c).Ok? {
      ReportedGood(i, c.body.reportId, c.body.reportKind);
    }
  }

  lemma AbandonGood(i: Interview, c: Command, reason: AbandonReason)
    requires Good(i) && i.status == Active
    ensures GoodResult(i, Moved(Abandon(i, c, reason)))
  {
    ClosedGood(i, i.version + 1);
  }

  lemma DispatchGood(i: Interview, c: Command)
    requires Good(i) && !c.body.CreateInterview? && c.interviewId == i.id && c.expectedVersion == i.version
    requires i.pending.None? || c.body.ExpireInterview?
    ensures Dispatch(i, c).Ok? ==> GoodResult(i, Dispatch(i, c).value)
  {
    match c.body {
      case SubmitAnswer(_, _) => PlanCommandGood(i, c);
      case SubmitSupplement(_, _) => PlanCommandGood(i, c);
      case RequestClarification => PlanCommandGood(i, c);
      case MarkUnknown => UnevaluatedGood(i, c, Unknown);
      case SkipQuestion => UnevaluatedGood(i, c, Skipped);
      case ContinueInterview => ContinueGood(i, c);
      case EndEarly => EndGood(i, c);
      case AbandonInterview => if i.status == Active { AbandonGood(i, c, ByUser); }
      case ExpireInterview => if i.status == Active { AbandonGood(i, c, ByExpiry); }
      case RecordReport(_, _) => ReportGood(i, c);
    }
  }

  /** A handled command keeps the invariant. */
  lemma HandledGood(i: Interview, c: Command)
    requires Good(i) && !c.body.CreateInterview?
    ensures Handled(i, c).Ok? ==> GoodResult(i, Handled(i, c).value)
  {
    if c.interviewId == i.id && c.expectedVersion == i.version && (i.pending.None? || c.body.ExpireInterview?) {
      DispatchGood(i, c);
    }
    if i.status == Active {
      AbandonGood(i, c, ByExpiry);
    }
  }

  lemma FinishedGood(i: Interview, q: QuestionState, phase: Phase)
    requires Good(i) && i.status == Active && phase != Processing
    requires q.position == i.current && Kept(q, Snapshot(i, i.current - 1)) && !q.frozen
    requires phase == AwaitingResponse ==> q.outcome.None? && q.evaluation.None? && (Fresh(q) || Unanswered(q))
    requires phase == AwaitingContinue ==> q.outcome.Some?
    ensures Good(Finished(i, q, phase))
  {
    ReplacedList(i, Finished(i, q, phase), q);
  }

  lemma PlanAccepted(i: Interview, p: Plan)
    requires Good(i) && PlanFits(i, p)
    ensures AcceptedPlan(i, p) == Ok(i.pending.value) && i.status == Active
    ensures p.AnswerPlan? ==> Joins(i.questions[i.current - 1], p.material)
    ensures p.ClarificationPlan? <==> i.pending.value.operation == QuestionClarifying
  {
    if p.AnswerPlan? {
      PlannedMaterialJoins(i.questions[i.current - 1], p.command);
    }
  }

  lemma FinishedClarification(i: Interview, p: Plan, c: Completion)
    requires Good(i) && PlanFits(i, p) && p.ClarificationPlan? && c.body.RecordClarification? && NonBlank(c.body.text)
    ensures Good(Finished(i, Clarified(i.questions[i.current - 1], p, c), AwaitingResponse))
  {
    PlanAccepted(i, p);
    CurrentFound(i);
    var q := i.questions[i.current - 1];
    KeptClarified(q, Snapshot(i, i.current - 1), p, c);
    FinishedGood(i, Clarified(q, p, c), AwaitingResponse);
  }

  lemma FinishedFollowUp(i: Interview, p: Plan, c: Completion)
    requires Good(i) && PlanFits(i, p) && p.AnswerPlan? && c.body.RecordFollowUp? && NonBlank(c.body.text)
    requires CheckFollowUp(Snapshot(i, i.current - 1), i.questions[i.current - 1], c.body).Holds?
    ensures Good(Finished(i, FollowedUp(i.questions[i.current - 1], p.material, c), AwaitingResponse))
  {
    PlanAccepted(i, p);
    CurrentFound(i);
    NotFrozen(i);
    var q := i.questions[i.current - 1];
    KeptFollowUp(q, Snapshot(i, i.current - 1), p.material, c);
    FinishedGood(i, FollowedUp(q, p.material, c), AwaitingResponse);
  }

  lemma FinishedEvaluation(i: Interview, p: Plan, c: Completion)
    requires Good(i) && PlanFits(i, p) && p.AnswerPlan? && c.body.RecordEvaluation?
    requires var q := i.questions[i.current - 1];
             CheckEvaluation(Snapshot(i, i.current - 1), q, q.answerMaterial + [p.material], c.body.evaluation).Holds?
    ensures Good(Finished(i, EvaluatedWith(i.questions[i.current - 1], p.material, c.body.evaluation), AwaitingContinue))
  {
    PlanAccepted(i, p);
    CurrentFound(i);
    NotFrozen(i);
    var q := i.questions[i.current - 1];
    KeptEvaluation(q, Snapshot(i, i.current - 1), p.material, c.body.evaluation);
    FinishedGood(i, EvaluatedWith(q, p.material, c.body.evaluation), AwaitingContinue);
  }

  lemma NotFrozen(i: Interview)
    requires Good(i) && i.status == Active
    ensures !i.questions[i.current - 1].frozen && i.questions[i.current - 1].position == i.current
  {
    assert QuestionOk(i, i.current - 1);
    var e := EffectivePhase(i);
    assert e.Some? && e.value != Processing;
    assert e == Some(AwaitingResponse) || e == Some(AwaitingContinue) by {
      match e.value { case _ => }
    }
  }

  /** A completion in time replaces the current question in one of three ways. */
  lemma CompletedAs(i: Interview, p: Plan, c: Completion, q: QuestionState) returns (r: QuestionState, phase: Phase)
    requires CurrentQuestion(i) == Ok(q) && CompleteOperation(i, p, c).Ok? && !Expired(i, c.occurredAt)
    ensures CompleteOperation(i, p, c).value.interview == Finished(i, r, phase) && i.status == Active
    ensures r.position == q.position && phase != Processing
    ensures p.ClarificationPlan? ==> c.body.RecordClarification? && r == Clarified(q, p, c) && phase == AwaitingResponse
    ensures p.AnswerPlan? ==> r.answerMaterial == q.answerMaterial + [p.material]
    ensures p.AnswerPlan? ==>
              || (c.body.RecordFollowUp? && r == FollowedUp(q, p.material, c) && phase == AwaitingResponse)
              || (c.body.RecordEvaluation? && r == EvaluatedWith(q, p.material, c.body.evaluation) && phase == AwaitingContinue)
  {
    if p.ClarificationPlan? {
      r, phase := Clarified(q, p, c), AwaitingResponse;
    } else if c.body.RecordFollowUp? {
      r, phase := FollowedUp(q, p.material, c), AwaitingResponse;
    } else {
      r, phase := EvaluatedWith(q, p.material, c.body.evaluation), AwaitingContinue;
    }
  }

  /** A completion keeps the invariant and the version, and ends the operation. */
  lemma CompleteGood(i: Interview, p: Plan, c: Completion)
    requires Good(i) && PlanFits(i, p) && CompleteOperation(i, p, c).Ok?
    ensures var j := CompleteOperation(i, p, c).value.interview;
            Good(j) && j.pending.None? && j.version == i.version
  {
    PlanAccepted(i, p);
    CurrentFound(i);
    if Expired(i, c.occurredAt) {
      ClosedGood(i, i.version);
    } else if p.ClarificationPlan? {
      FinishedClarification(i, p, c);
    } else if c.body.RecordFollowUp? {
      FinishedFollowUp(i, p, c);
    } else {
      FinishedEvaluation(i, p, c);
    }
  }

  lemma CancelGood(i: Interview, p: Plan)
    requires Good(i) && PlanFits(i, p)
    ensures CancelOperation(i, p).Ok?
    ensures var j := CancelOperation(i, p).value;
            Good(j) && j == i.(phase := Some(PhaseFor(p.command.body)), pending := None)
  {
    PlanAccepted(i, p);
    SameList(i, CancelOperation(i, p).value);
  }

  /** The plan of a refreshed operation: as before, with the new acceptance time and interview. */
  function Replan(p: Plan, i: Interview): Plan {
    if p.AnswerPlan? then AnswerPlan(p.interviewId, p.operationId, p.position, i.lastActivityAt, i, p.command, p.material)
    else ClarificationPlan(p.interviewId, p.operationId, p.position, i.lastActivityAt, i, p.command)
  }

  lemma RefreshGood(i: Interview, p: Plan, operationId: Id, at: int)
    requires Good(i) && PlanFits(i, p)
    ensures RefreshOperation(i, operationId, at).Ok? ==>
              var j := RefreshOperation(i, operationId, at).value;
              Good(j) && PlanFits(j, Replan(p, j)) && j.version == i.version
  {
    if RefreshOperation(i, operationId, at).Ok? {
      SameList(i, RefreshOperation(i, operationId, at).value);
    }
  }

  lemma RefreshReportGood(i: Interview, at: int)
    requires Good(i)
    ensures RefreshReport(i, at).Ok? ==>
              var j := RefreshReport(i, at).value;
              Good(j) && j.version == i.version && j.pending.None?
  {
    if RefreshReport(i, at).Ok? {
      SameList(i, RefreshReport(i, at).value);
    }
  }
}
