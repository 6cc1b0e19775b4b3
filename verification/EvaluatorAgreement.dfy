/** The evaluator's checks and the engine's checks agree on every reachable answer
    (apps/server/src/answer-evaluation-model.ts, apps/server/src/model-operation-execution.ts, packages/domain/src/engine.ts). */
module EvaluatorAgreement {
  import opened Basics
  import opened Sequences
  import opened TextOrder
  import opened InterviewModel
  import opened Scoring
  import opened Engine
  import opened EngineInvariant
  import opened EngineLog
  import opened EngineRuns
  import opened Codec
  import opened Evaluator

  // ---------- the evaluator's own checks imply that the output can be scored ----------

  predicate IsScoringCode(code: Code) {
    || code.RubricItemCount? || code.DuplicateRubricId? || code.UnknownRubricId? || code.PointsExceedWeight?
    || code.EvidenceRequired? || code.UnknownEvidence? || code.IrrelevantPoints?
  }

  predicate NonNegative(awards: seq<Award>) {
    forall a :: a in awards ==> a.awardedPoints >= 0
  }

  lemma FitsByCodes(w: map<Id, int>, evidence: set<Id>, leaks: Leakage, a: Award)
    requires a.awardedPoints >= 0
    ensures AwardFits(w, a, evidence) <==>
              && !AwardViolates(w, evidence, leaks, a, UnknownRubricId) && !AwardViolates(w, evidence, leaks, a, PointsExceedWeight)
              && !AwardViolates(w, evidence, leaks, a, EvidenceRequired) && !AwardViolates(w, evidence, leaks, a, UnknownEvidence)
  {
  }

  lemma AllFitByCodes(w: map<Id, int>, evidence: set<Id>, leaks: Leakage, awards: seq<Award>)
    requires NonNegative(awards)
    ensures (forall a :: a in awards ==> AwardFits(w, a, evidence)) <==>
              && !SomeAward(w, evidence, leaks, awards, UnknownRubricId) && !SomeAward(w, evidence, leaks, awards, PointsExceedWeight)
              && !SomeAward(w, evidence, leaks, awards, EvidenceRequired) && !SomeAward(w, evidence, leaks, awards, UnknownEvidence)
  {
    forall k | 0 <= k < |awards| ensures AwardFits(w, awards[k], evidence) <==>
        && !AwardViolates(w, evidence, leaks, awards[k], UnknownRubricId) && !AwardViolates(w, evidence, leaks, awards[k], PointsExceedWeight)
        && !AwardViolates(w, evidence, leaks, awards[k], EvidenceRequired) && !AwardViolates(w, evidence, leaks, awards[k], UnknownEvidence) {
      assert awards[k] in awards;
      FitsByCodes(w, evidence, leaks, awards[k]);
    }
  }

  /** With a valid rubric and no negative points, the codes about scoring are violated by none exactly when
      `scoreQuestion` accepts; in that case no rubric item is missing either. */
  lemma ChecksDecideScoring(r: Request, leaks: Leakage, o: AnswerEvaluation)
    requires ValidRubric(r.question.rubric) && NonNegative(o.rubricItems)
    ensures (forall code :: IsScoringCode(code) ==> !Violates(r, leaks, o, code))
            <==> Acceptable(r.question.rubric, o.classification, o.rubricItems, EvidenceIds(r))
    ensures Acceptable(r.question.rubric, o.classification, o.rubricItems, EvidenceIds(r)) ==> !Violates(r, leaks, o, MissingRubricId)
  {
    AllFitByCodes(WeightTable(r.question.rubric), EvidenceIds(r), leaks, o.rubricItems);
    ScoringCodesAre(r, leaks, o);
    if Acceptable(r.question.rubric, o.classification, o.rubricItems, EvidenceIds(r)) {
      AwardsAreABijection(r.question.rubric, o.rubricItems, EvidenceIds(r));
      WeightTableKeys(r.question.rubric);
      forall id | id in WeightTable(r.question.rubric) ensures id in AwardIds(o.rubricItems) {
        assert id in multiset(RubricIds(r.question.rubric));
        assert id in multiset(AwardIds(o.rubricItems));
      }
    }
  }

  lemma ScoringCodesAre(r: Request, leaks: Leakage, o: AnswerEvaluation)
    ensures var w, e := WeightTable(r.question.rubric), EvidenceIds(r);
            (forall code :: IsScoringCode(code) ==> !Violates(r, leaks, o, code)) <==>
              && |o.rubricItems| == |r.question.rubric| && NoDup(AwardIds(o.rubricItems))
              && !SomeAward(w, e, leaks, o.rubricItems, UnknownRubricId) && !SomeAward(w, e, leaks, o.rubricItems, PointsExceedWeight)
              && !SomeAward(w, e, leaks, o.rubricItems, EvidenceRequired) && !SomeAward(w, e, leaks, o.rubricItems, UnknownEvidence)
              && (o.classification == Irrelevant ==> TotalPoints(o.rubricItems) == 0)
  {
    forall code | IsScoringCode(code) ensures !RecommendationViolates(r, o.classification, o.recommended, code) {
      RecommendationCodesOnly(r, o.classification, o.recommended, code);
    }
    if forall code :: IsScoringCode(code) ==> !Violates(r, leaks, o, code) {
      assert !Violates(r, leaks, o, RubricItemCount) && !Violates(r, leaks, o, DuplicateRubricId);
      assert !Violates(r, leaks, o, UnknownRubricId) && !Violates(r, leaks, o, PointsExceedWeight);
      assert !Violates(r, leaks, o, EvidenceRequired) && !Violates(r, leaks, o, UnknownEvidence) && !Violates(r, leaks, o, IrrelevantPoints);
    }
  }

  /** So the rejection by the scoring is never the only issue. */
  lemma ScoringNeverSurprises(r: Request, leaks: Leakage, o: AnswerEvaluation)
    requires ValidRubric(r.question.rubric) && NonNegative(o.rubricItems)
    requires forall code :: !Violates(r, leaks, o, code)
    ensures Acceptable(r.question.rubric, o.classification, o.rubricItems, EvidenceIds(r))
  {
    ChecksDecideScoring(r, leaks, o);
  }

  // ---------- the request built from a plan ----------

  /** What the model is asked about: the current question, its material with the new answer, the used goals. */
  function RequestFor(i: Interview, p: Plan): Request
    requires p.AnswerPlan? && 1 <= i.current <= |i.questions| && i.current <= |i.blueprint.questions|
  {
    var q := i.questions[i.current - 1];
    Request(Snapshot(i, i.current - 1), q.answerMaterial + [p.material], ToSet(FollowUpGoalIds(q.followUps)))
  }

  /** `validateRequest`. */
  ghost predicate ValidRequest(r: Request) {
    && ValidRubric(r.question.rubric) && r.question.questionVersion >= 1 && NonBlank(r.question.sourceWording)
    && r.answerMaterial != [] && NoDup(MaterialIds(r.answerMaterial)) && (forall m :: m in r.answerMaterial ==> NonBlank(m.text))
    && NoDup(GoalIds(r.question.followUpGoals)) && (forall g :: g in r.question.followUpGoals ==> NonBlank(g.goal))
    && (forall id :: id in r.usedGoals ==> id in GoalIds(r.question.followUpGoals))
  }

  lemma GoalIdsCons(goals: seq<FollowUpGoal>)
    ensures goals != [] ==> GoalIds(goals) == [goals[0].id] + GoalIds(goals[1..]) && GoalIds(goals)[1..] == GoalIds(goals[1..])
  {
  }

  lemma {:induction false} FindGoalFinds(goals: seq<FollowUpGoal>, id: Id)
    ensures FindGoal(goals, id).Some? <==> id in GoalIds(goals)
  {
    if goals != [] {
      GoalIdsCons(goals);
      if goals[0].id != id {
        FindGoalFinds(goals[1..], id);
      }
    }
  }

  lemma {:induction false} FoundGoal(goals: seq<FollowUpGoal>, id: Id)
    ensures FindGoal(goals, id).Some? ==> FindGoal(goals, id).value in goals && FindGoal(goals, id).value.id == id
  {
    if goals != [] && goals[0].id != id {
      FoundGoal(goals[1..], id);
    }
  }

  lemma {:induction false} FindGoalDistinct(goals: seq<FollowUpGoal>, g: FollowUpGoal)
    requires NoDup(GoalIds(goals)) && g in goals
    ensures FindGoal(goals, g.id) == Some(g)
  {
    GoalIdsCons(goals);
    NoDupStep(GoalIds(goals));
    if g != goals[0] {
      assert g in goals[1..];
      var k :| 0 <= k < |goals[1..]| && goals[1..][k] == g;
      assert GoalIds(goals[1..])[k] == g.id;
      FindGoalDistinct(goals[1..], g);
    }
  }

  lemma FollowUpKindOf(q: QuestionState, s: Question, id: Id) returns (f: SystemFollowUp)
    requires FollowUpsOk(q, s) && id in FollowUpGoalIds(q.followUps)
    ensures f in q.followUps && f.goalId == id && FollowUpFits(f, s)
  {
    var k :| 0 <= k < |q.followUps| && FollowUpGoalIds(q.followUps)[k] == id;
    f := q.followUps[k];
  }

  /** The kinds of the used goals are the kinds of the recorded follow-ups. */
  lemma UsedKindsAreFollowUpKinds(q: QuestionState, s: Question, r: Request, kind: FollowUpKind)
    requires FollowUpsOk(q, s) && NoDup(GoalIds(s.followUpGoals))
    requires r.question == s && r.usedGoals == ToSet(FollowUpGoalIds(q.followUps))
    ensures kind in UsedKinds(r) <==> kind in FollowUpKinds(q.followUps)
  {
    if kind in UsedKinds(r) {
      var g :| g in s.followUpGoals && g.id in r.usedGoals && g.kind == kind;
      var f := FollowUpKindOf(q, s, g.id);
      FindGoalDistinct(s.followUpGoals, g);
      var k :| 0 <= k < |q.followUps| && q.followUps[k] == f;
      assert FollowUpKinds(q.followUps)[k] == kind;
    }
    if kind in FollowUpKinds(q.followUps) {
      var k :| 0 <= k < |q.followUps| && FollowUpKinds(q.followUps)[k] == kind;
      var f := q.followUps[k];
      assert f in q.followUps && FollowUpFits(f, s);
      FindGoalFinds(s.followUpGoals, f.goalId);
      FoundGoal(s.followUpGoals, f.goalId);
      assert FollowUpGoalIds(q.followUps)[k] == f.goalId;
      assert f.goalId in r.usedGoals;
    }
  }

  lemma CurrentSnapshotValid(i: Interview)
    requires ListOk(i)
    ensures |i.blueprint.questions| == |i.questions| && ValidSnapshot(Snapshot(i, i.current - 1))
  {
    assert ItemFits(i.blueprint.questions, i.current - 1);
  }

  lemma UsedGoalsAreSupplied(q: QuestionState, s: Question)
    requires FollowUpsOk(q, s)
    ensures forall id :: id in FollowUpGoalIds(q.followUps) ==> id in GoalIds(s.followUpGoals)
  {
    forall id | id in FollowUpGoalIds(q.followUps) ensures id in GoalIds(s.followUpGoals) {
      var f := FollowUpKindOf(q, s, id);
      FindGoalFinds(s.followUpGoals, id);
    }
  }

  /** The request of a reachable plan is never refused. */
  lemma RequestIsValid(i: Interview, p: Plan)
    requires Good(i) && PlanFits(i, p) && p.AnswerPlan?
    ensures |i.blueprint.questions| == |i.questions| && ValidRequest(RequestFor(i, p))
  {
    CurrentSnapshotValid(i);
    CurrentFound(i);
    PlanAccepted(i, p);
    var q := i.questions[i.current - 1];
    MaterialJoins(q, p.material, WithMaterial(q, p.material));
    UsedGoalsAreSupplied(q, Snapshot(i, i.current - 1));
  }

  // ---------- agreement ----------

  /** The codes that the engine checks too when the output becomes an evaluation. */
  predicate IsEvaluationCode(code: Code) {
    IsScoringCode(code) || code.ClarificationRequired?
  }

  /** The codes that the engine checks too when the output becomes a follow-up. */
  predicate IsFollowUpCode(code: Code) {
    || code.UsedGoal? || code.KindAlreadyUsed? || code.IncompatiblePurpose?
    || code.UnknownFollowUpGoal? || code.KindMismatch? || code.ClassificationPurposeMismatch?
  }

  lemma EvaluationCodesDecide(q: QuestionState, s: Question, r: Request, leaks: Leakage, o: AnswerEvaluation, e: EvaluationInput, materials: seq<AnswerMaterial>)
    requires FollowUpsOk(q, s) && NoDup(GoalIds(s.followUpGoals)) && ValidRubric(s.rubric) && NonNegative(o.rubricItems) && o.recommended.None?
    requires r == Request(s, materials, ToSet(FollowUpGoalIds(q.followUps)))
    requires e.classification == o.classification && e.rubricItems == o.rubricItems
    ensures CheckEvaluation(s, q, materials, e).Holds? <==> forall code :: IsEvaluationCode(code) ==> !Violates(r, leaks, o, code)
  {
    ChecksDecideScoring(r, leaks, o);
    UsedKindsAreFollowUpKinds(q, s, r, Clarification);
    assert Violates(r, leaks, o, ClarificationRequired) <==> o.classification == Irrelevant && !HasClarified(q) by {
      AwardCodesOnly(WeightTable(s.rubric), EvidenceIds(r), leaks, o.rubricItems, ClarificationRequired);
    }
    assert (forall code :: IsEvaluationCode(code) ==> !Violates(r, leaks, o, code)) <==>
      (forall code :: IsScoringCode(code) ==> !Violates(r, leaks, o, code)) && !Violates(r, leaks, o, ClarificationRequired);
  }

  lemma FollowUpCodesDecide(q: QuestionState, s: Question, r: Request, leaks: Leakage, o: AnswerEvaluation, body: CompletionBody)
    requires FollowUpsOk(q, s) && NoDup(GoalIds(s.followUpGoals)) && o.recommended.Some?
    requires r.question == s && r.usedGoals == ToSet(FollowUpGoalIds(q.followUps))
    requires body.RecordFollowUp? && o.recommended.value == Recommendation(body.goalId, body.kind, body.purpose) && body.classification == o.classification
    ensures CheckFollowUp(s, q, body).Holds? <==> forall code :: IsFollowUpCode(code) ==> !Violates(r, leaks, o, code)
  {
    UsedKindsAreFollowUpKinds(q, s, r, body.kind);
    forall code | IsFollowUpCode(code)
      ensures Violates(r, leaks, o, code) <==> RecommendationViolates(r, o.classification, o.recommended, code)
    {
      AwardCodesOnly(WeightTable(s.rubric), EvidenceIds(r), leaks, o.rubricItems, code);
    }
    FollowUpCodesAre(q, s, r, leaks, o, body);
  }

  lemma FollowUpCodesAre(q: QuestionState, s: Question, r: Request, leaks: Leakage, o: AnswerEvaluation, body: CompletionBody)
    requires o.recommended.Some? && r.question == s && r.usedGoals == ToSet(FollowUpGoalIds(q.followUps))
    requires body.RecordFollowUp? && o.recommended.value == Recommendation(body.goalId, body.kind, body.purpose) && body.classification == o.classification
    requires body.kind in UsedKinds(r) <==> body.kind in FollowUpKinds(q.followUps)
    ensures CheckFollowUp(s, q, body).Holds?
            <==> forall code :: IsFollowUpCode(code) ==> !RecommendationViolates(r, o.classification, o.recommended, code)
  {
    var c, f := o.classification, o.recommended;
    if forall code :: IsFollowUpCode(code) ==> !RecommendationViolates(r, c, f, code) {
      assert !RecommendationViolates(r, c, f, UsedGoal) && !RecommendationViolates(r, c, f, KindAlreadyUsed);
      assert !RecommendationViolates(r, c, f, IncompatiblePurpose) && !RecommendationViolates(r, c, f, UnknownFollowUpGoal);
      assert !RecommendationViolates(r, c, f, KindMismatch) && !RecommendationViolates(r, c, f, ClassificationPurposeMismatch);
    }
  }

  /** An output without a recommendation, sent in time, is accepted by the engine exactly when it violates
      none of the evaluator's codes about scoring and clarification. */
  lemma EvaluationAgreement(i: Interview, p: Plan, leaks: Leakage, o: AnswerEvaluation, c: Completion)
    requires Good(i) && PlanFits(i, p) && p.AnswerPlan? && |i.blueprint.questions| == |i.questions|
    requires StillCurrent(i, p, c).Holds? && !Expired(i, c.occurredAt)
    requires o.recommended.None? && NonNegative(o.rubricItems)
    requires c.body.RecordEvaluation? && c.body.evaluation.classification == o.classification && c.body.evaluation.rubricItems == o.rubricItems
    ensures CompleteOperation(i, p, c).Ok? <==> forall code :: IsEvaluationCode(code) ==> !Violates(RequestFor(i, p), leaks, o, code)
  {
    CurrentSnapshotValid(i);
    CurrentFound(i);
    var q, s := i.questions[i.current - 1], Snapshot(i, i.current - 1);
    EvaluationCodesDecide(q, s, RequestFor(i, p), leaks, o, c.body.evaluation, q.answerMaterial + [p.material]);
  }

  /** An output with a recommendation, phrased and sent in time, is accepted by the engine exactly when its
      text is nonblank and it violates none of the evaluator's codes about follow-ups. */
  lemma FollowUpAgreement(i: Interview, p: Plan, leaks: Leakage, o: AnswerEvaluation, c: Completion)
    requires Good(i) && PlanFits(i, p) && p.AnswerPlan? && |i.blueprint.questions| == |i.questions|
    requires StillCurrent(i, p, c).Holds? && !Expired(i, c.occurredAt)
    requires o.recommended.Some? && c.body.RecordFollowUp? && c.body.classification == o.classification
    requires o.recommended.value == Recommendation(c.body.goalId, c.body.kind, c.body.purpose)
    ensures CompleteOperation(i, p, c).Ok? <==>
              NonBlank(c.body.text) && forall code :: IsFollowUpCode(code) ==> !Violates(RequestFor(i, p), leaks, o, code)
  {
    CurrentSnapshotValid(i);
    CurrentFound(i);
    FollowUpCodesDecide(i.questions[i.current - 1], Snapshot(i, i.current - 1), RequestFor(i, p), leaks, o, c.body);
  }

  /** The evaluator and the engine agree: in every reachable processing state, an output without issues is
      never rejected when it completes the operation, at whatever time the clock shows, provided a follow-up
      has a nonblank text. */
  lemma CleanOutputIsNeverRejected(derive: Deriver, w: World, op: StoredOperation, leaks: Leakage, m: ModelCompletion, now: int)
    requires Sound(w) && w.interview.Some? && w.plan.Some? && w.plan.value.AnswerPlan?
    requires DecodeInitial(derive, op) == Ok(w.plan.value.command)
    requires (m.EvaluationOnly? && m.evaluation.recommended.None?)
             || (m.FollowUpText? && m.evaluation.recommended.Some? && NonBlank(m.text))
    requires NonNegative(m.evaluation.rubricItems)
    requires w.interview.value.current <= |w.interview.value.blueprint.questions|
    requires forall code :: !Violates(RequestFor(w.interview.value, w.plan.value), leaks, m.evaluation, code)
    ensures var i, p := w.interview.value, w.plan.value;
            var c := CompletionCommand(derive, op, i, m, NotBefore(now, p.acceptedAt));
            c.Ok? && CompleteOperation(i, p, c.value).Ok?
  {
    var i, p := w.interview.value, w.plan.value;
    ClampedCompletionIsCurrent(derive, w, op, m, now);
    var c := CompletionCommand(derive, op, i, m, NotBefore(now, p.acceptedAt)).value;
    CurrentFound(i);
    if !Expired(i, c.occurredAt) {
      if m.EvaluationOnly? {
        EvaluationAgreement(i, p, leaks, m.evaluation, c);
      } else {
        FollowUpAgreement(i, p, leaks, m.evaluation, c);
      }
    }
  }
}
