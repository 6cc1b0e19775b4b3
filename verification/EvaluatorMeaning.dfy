/** What a clean output of the evaluation model is, without issue codes. */
module EvaluatorMeaning {
  import opened Basics
  import opened Sequences
  import opened TextOrder
  import opened InterviewModel
  import opened Scoring
  import opened Engine
  import opened Codec
  import opened Evaluator
  import opened EvaluatorAgreement
  import EngineEffects

  // ---------- a clean output ----------

  /** All texts of all awards, in order. */
  function Texts(awards: seq<Award>): seq<string> {
    if awards == [] then [] else awards[0].missingOrIncorrectPoints + Texts(awards[1..])
  }

  function Letters(texts: seq<string>): nat {
    if texts == [] then 0 else |texts[0]| + Letters(texts[1..])
  }

  /** One to six texts for an award below its weight, none for a full one; each of 1 to 300 characters and not private. */
  predicate PointsClean(leaks: Leakage, points: seq<string>, full: bool) {
    && (points == [] <==> full) && |points| <= 6
    && forall k :: 0 <= k < |points| ==> NonBlank(points[k]) && |points[k]| <= 300 && !leaks.exposes(points[k])
  }

  /** The award is for a rubric item, within its weight, with evidence for points, and its texts are clean. */
  predicate AwardClean(r: Request, leaks: Leakage, a: Award) {
    && (a.awardedPoints > 0 ==> a.evidenceMaterialIds != [])
    && (forall id :: id in a.evidenceMaterialIds ==> exists m :: m in r.answerMaterial && m.id == id)
    && exists item :: item in r.question.rubric && FitsItem(leaks, a, item)
  }

  predicate FitsItem(leaks: Leakage, a: Award, item: RubricItem) {
    && item.id == a.rubricItemId && 0 <= a.awardedPoints <= item.weight
    && PointsClean(leaks, a.missingOrIncorrectPoints, a.awardedPoints == item.weight)
  }

  /** A goal of this kind was used. */
  predicate KindUsed(r: Request, kind: FollowUpKind) {
    exists g :: g in r.question.followUpGoals && g.id in r.usedGoals && g.kind == kind
  }

  /** The advice is for an unused goal of its kind, of a kind not used before, with a purpose of the kind, and the purpose
      for irrelevant answers exactly for these. */
  predicate AdviceClean(r: Request, c: Classification, f: Recommendation) {
    && f.goalId !in r.usedGoals && !KindUsed(r, f.kind)
    && (exists g :: g in r.question.followUpGoals && g.id == f.goalId && g.kind == f.kind)
    && (f.purpose == DepthPurpose <==> f.kind == Depth)
    && (f.purpose == IrrelevantResponseClarification <==> c == Irrelevant)
  }

  /** An irrelevant answer without advice had its clarification before. */
  predicate RecommendationClean(r: Request, o: AnswerEvaluation) {
    match o.recommended
    case None => o.classification == Irrelevant ==> KindUsed(r, Clarification)
    case Some(f) => AdviceClean(r, o.classification, f)
  }

  ghost predicate CleanOutput(r: Request, leaks: Leakage, o: AnswerEvaluation) {
    && |o.rubricItems| == |r.question.rubric|
    && (forall a, b :: 0 <= a < b < |o.rubricItems| ==> o.rubricItems[a].rubricItemId != o.rubricItems[b].rubricItemId)
    && (forall k :: 0 <= k < |o.rubricItems| ==> AwardClean(r, leaks, o.rubricItems[k]))
    && (o.classification == Irrelevant ==> TotalPoints(o.rubricItems) == 0)
    && Letters(Texts(o.rubricItems)) <= 1200 && !leaks.exposesTogether(Texts(o.rubricItems))
    && RecommendationClean(r, o)
  }

  // ---------- the texts ----------

  lemma {:induction false} TextsAppend(a: seq<Award>, b: seq<Award>)
    ensures Texts(a + b) == Texts(a) + Texts(b)
  {
    if a == [] {
      assert a + b == b;
    } else {
      assert (a + b)[1..] == a[1..] + b;
      TextsAppend(a[1..], b);
    }
  }

  lemma {:induction false} TextsAreAllPoints(awards: seq<Award>)
    ensures AllPoints(awards) == Texts(awards)
  {
    if awards != [] {
      var n := |awards| - 1;
      TextsAreAllPoints(awards[..n]);
      TextsAppend(awards[..n], [awards[n]]);
      assert awards == awards[..n] + [awards[n]];
      assert Texts([awards[n]]) == awards[n].missingOrIncorrectPoints;
    }
  }

  lemma {:induction false} LettersAppend(a: seq<string>, b: seq<string>)
    ensures Letters(a + b) == Letters(a) + Letters(b)
  {
    if a == [] {
      assert a + b == b;
    } else {
      assert (a + b)[1..] == a[1..] + b;
      LettersAppend(a[1..], b);
    }
  }

  lemma {:induction false} LettersAreCharacters(texts: seq<string>)
    ensures Characters(texts) == Letters(texts)
  {
    if texts != [] {
      var n := |texts| - 1;
      LettersAreCharacters(texts[..n]);
      LettersAppend(texts[..n], [texts[n]]);
      assert texts == texts[..n] + [texts[n]];
      assert Letters([texts[n]]) == |texts[n]|;
    }
  }

  // ---------- one award ----------

  predicate IsAwardCode(code: Code) {
    || code.UnknownRubricId? || code.PointsExceedWeight? || code.EvidenceRequired? || code.UnknownEvidence? || code.TooManyMissingPoints?
    || code.MissingPointsRequired? || code.UnexpectedMissingPoints? || code.InvalidPointLength? || code.PrivateContentLeak?
  }

  lemma PointsAreClean(leaks: Leakage, points: seq<string>)
    ensures !Misshapen(points) && !Leaks(leaks, points) <==>
              forall k :: 0 <= k < |points| ==> NonBlank(points[k]) && |points[k]| <= 300 && !leaks.exposes(points[k])
  {
    if !Misshapen(points) && !Leaks(leaks, points) {
      forall k | 0 <= k < |points| ensures NonBlank(points[k]) && |points[k]| <= 300 && !leaks.exposes(points[k]) {
        assert points[k] in points;
      }
    }
  }

  lemma KnownEvidence(r: Request, a: Award)
    ensures !Strays(EvidenceIds(r), a.evidenceMaterialIds) <==>
              forall id :: id in a.evidenceMaterialIds ==> exists m :: m in r.answerMaterial && m.id == id
  {
    forall id ensures id in EvidenceIds(r) <==> exists m :: m in r.answerMaterial && m.id == id {
      if id in EvidenceIds(r) {
        var k :| 0 <= k < |r.answerMaterial| && MaterialIds(r.answerMaterial)[k] == id;
        assert r.answerMaterial[k] in r.answerMaterial;
      }
      if m :| m in r.answerMaterial && m.id == id {
        var k :| 0 <= k < |r.answerMaterial| && r.answerMaterial[k] == m;
        assert MaterialIds(r.answerMaterial)[k] == id;
      }
    }
  }

  /** The item of an id, and its weight. */
  lemma ItemOf(rubric: seq<RubricItem>, id: Id) returns (item: RubricItem)
    requires ValidRubric(rubric) && id in WeightTable(rubric)
    ensures item in rubric && item.id == id && WeightTable(rubric)[id] == item.weight
  {
    WeightTableFits(rubric);
    var k :| 0 <= k < |rubric| && rubric[k].id == id;
    item := rubric[k];
  }

  lemma WeightOfItem(rubric: seq<RubricItem>, item: RubricItem)
    requires ValidRubric(rubric) && item in rubric
    ensures item.id in WeightTable(rubric) && WeightTable(rubric)[item.id] == item.weight
  {
    WeightTableFits(rubric);
  }

  predicate NoAwardCode(w: map<Id, int>, evidence: set<Id>, leaks: Leakage, a: Award, code: Code) {
    IsAwardCode(code) ==> !AwardViolates(w, evidence, leaks, a, code)
  }

  lemma UnviolatedAwardIsClean(r: Request, leaks: Leakage, a: Award)
    requires ValidRubric(r.question.rubric) && a.awardedPoints >= 0
    requires forall code :: NoAwardCode(WeightTable(r.question.rubric), EvidenceIds(r), leaks, a, code)
    ensures AwardClean(r, leaks, a)
  {
    var w, e := WeightTable(r.question.rubric), EvidenceIds(r);
    PointsAreClean(leaks, a.missingOrIncorrectPoints);
    KnownEvidence(r, a);
    assert NoAwardCode(w, e, leaks, a, UnknownRubricId) && NoAwardCode(w, e, leaks, a, PointsExceedWeight);
    assert NoAwardCode(w, e, leaks, a, EvidenceRequired) && NoAwardCode(w, e, leaks, a, UnknownEvidence);
    assert NoAwardCode(w, e, leaks, a, TooManyMissingPoints) && NoAwardCode(w, e, leaks, a, MissingPointsRequired);
    assert NoAwardCode(w, e, leaks, a, UnexpectedMissingPoints) && NoAwardCode(w, e, leaks, a, InvalidPointLength);
    assert NoAwardCode(w, e, leaks, a, PrivateContentLeak);
    var item := ItemOf(r.question.rubric, a.rubricItemId);
    assert FitsItem(leaks, a, item);
  }

  lemma CleanAwardIsUnviolated(r: Request, leaks: Leakage, a: Award, code: Code)
    requires ValidRubric(r.question.rubric) && AwardClean(r, leaks, a)
    ensures !AwardViolates(WeightTable(r.question.rubric), EvidenceIds(r), leaks, a, code)
  {
    PointsAreClean(leaks, a.missingOrIncorrectPoints);
    KnownEvidence(r, a);
    var item :| item in r.question.rubric && FitsItem(leaks, a, item);
    WeightOfItem(r.question.rubric, item);
  }

  lemma AwardIsClean(r: Request, leaks: Leakage, a: Award)
    requires ValidRubric(r.question.rubric) && a.awardedPoints >= 0
    ensures AwardClean(r, leaks, a)
            <==> forall code :: IsAwardCode(code) ==> !AwardViolates(WeightTable(r.question.rubric), EvidenceIds(r), leaks, a, code)
  {
    if AwardClean(r, leaks, a) {
      forall code ensures !AwardViolates(WeightTable(r.question.rubric), EvidenceIds(r), leaks, a, code) {
        CleanAwardIsUnviolated(r, leaks, a, code);
      }
    } else if forall code :: NoAwardCode(WeightTable(r.question.rubric), EvidenceIds(r), leaks, a, code) {
      UnviolatedAwardIsClean(r, leaks, a);
    }
  }

  lemma AwardsAreClean(r: Request, leaks: Leakage, o: AnswerEvaluation)
    requires ValidRubric(r.question.rubric) && NonNegative(o.rubricItems)
    ensures (forall k :: 0 <= k < |o.rubricItems| ==> AwardClean(r, leaks, o.rubricItems[k]))
            <==> forall code :: IsAwardCode(code) ==> !SomeAward(WeightTable(r.question.rubric), EvidenceIds(r), leaks, o.rubricItems, code)
  {
    var w, e := WeightTable(r.question.rubric), EvidenceIds(r);
    forall k | 0 <= k < |o.rubricItems|
      ensures AwardClean(r, leaks, o.rubricItems[k]) <==> forall code :: IsAwardCode(code) ==> !AwardViolates(w, e, leaks, o.rubricItems[k], code)
    {
      assert o.rubricItems[k] in o.rubricItems;
      AwardIsClean(r, leaks, o.rubricItems[k]);
    }
  }

  // ---------- the recommendation ----------

  lemma UsedKindMeans(r: Request, kind: FollowUpKind)
    ensures kind in UsedKinds(r) <==> KindUsed(r, kind)
  {
  }

  lemma UnviolatedRecommendationIsClean(r: Request, c: Classification, f: Recommendation)
    requires NoDup(GoalIds(r.question.followUpGoals))
    requires forall code :: !RecommendationViolates(r, c, Some(f), code)
    ensures AdviceClean(r, c, f)
  {
    UsedKindMeans(r, f.kind);
    EngineEffects.GoalFound(r.question.followUpGoals, f.goalId, f.kind);
    assert !RecommendationViolates(r, c, Some(f), UsedGoal) && !RecommendationViolates(r, c, Some(f), KindAlreadyUsed);
    assert !RecommendationViolates(r, c, Some(f), IncompatiblePurpose) && !RecommendationViolates(r, c, Some(f), UnknownFollowUpGoal);
    assert !RecommendationViolates(r, c, Some(f), KindMismatch) && !RecommendationViolates(r, c, Some(f), ClassificationPurposeMismatch);
  }

  lemma CleanRecommendationIsUnviolated(r: Request, c: Classification, f: Recommendation, code: Code)
    requires NoDup(GoalIds(r.question.followUpGoals)) && AdviceClean(r, c, f)
    ensures !RecommendationViolates(r, c, Some(f), code)
  {
    UsedKindMeans(r, f.kind);
    EngineEffects.GoalFound(r.question.followUpGoals, f.goalId, f.kind);
  }

  lemma RecommendationIsClean(r: Request, o: AnswerEvaluation)
    requires NoDup(GoalIds(r.question.followUpGoals))
    ensures RecommendationClean(r, o) <==> forall code :: !RecommendationViolates(r, o.classification, o.recommended, code)
  {
    var c := o.classification;
    match o.recommended {
      case None =>
        UsedKindMeans(r, Clarification);
        if forall code :: !RecommendationViolates(r, c, None, code) {
          assert !RecommendationViolates(r, c, None, ClarificationRequired);
        }
      case Some(f) =>
        if AdviceClean(r, c, f) {
          forall code ensures !RecommendationViolates(r, c, Some(f), code) {
            CleanRecommendationIsUnviolated(r, c, f, code);
          }
        } else if forall code :: !RecommendationViolates(r, c, Some(f), code) {
          UnviolatedRecommendationIsClean(r, c, f);
        }
    }
  }

  // ---------- the whole output ----------

  /** A violation about an award, about the recommendation, or about the whole. */
  lemma PartViolates(r: Request, leaks: Leakage, o: AnswerEvaluation, code: Code)
    ensures (IsAwardCode(code) && SomeAward(WeightTable(r.question.rubric), EvidenceIds(r), leaks, o.rubricItems, code))
            || RecommendationViolates(r, o.classification, o.recommended, code)
            ==> Violates(r, leaks, o, code)
    ensures Violates(r, leaks, o, code) ==>
              || (IsAwardCode(code) && SomeAward(WeightTable(r.question.rubric), EvidenceIds(r), leaks, o.rubricItems, code))
              || RecommendationViolates(r, o.classification, o.recommended, code) || WholeViolates(r, leaks, o, code)
    ensures WholeViolates(r, leaks, o, code) ==> Violates(r, leaks, o, code)
  {
  }

  predicate WholeViolates(r: Request, leaks: Leakage, o: AnswerEvaluation, code: Code) {
    match code
    case RubricItemCount => |o.rubricItems| != |r.question.rubric|
    case DuplicateRubricId => !NoDup(AwardIds(o.rubricItems))
    case MissingRubricId => Misses(WeightTable(r.question.rubric), o.rubricItems)
    case PrivateContentLeak => leaks.exposesTogether(AllPoints(o.rubricItems))
    case MissingPointsTooLong => Characters(AllPoints(o.rubricItems)) > MAX_TOTAL_CHARACTERS
    case IrrelevantPoints => o.classification == Irrelevant && TotalPoints(o.rubricItems) != 0
    case _ => false
  }

  predicate NothingWhole(r: Request, leaks: Leakage, o: AnswerEvaluation) {
    && |o.rubricItems| == |r.question.rubric| && NoDup(AwardIds(o.rubricItems))
    && !Misses(WeightTable(r.question.rubric), o.rubricItems) && !leaks.exposesTogether(AllPoints(o.rubricItems))
    && Characters(AllPoints(o.rubricItems)) <= MAX_TOTAL_CHARACTERS
    && (o.classification == Irrelevant ==> TotalPoints(o.rubricItems) == 0)
  }

  lemma WholeIs(r: Request, leaks: Leakage, o: AnswerEvaluation)
    ensures (forall code :: !WholeViolates(r, leaks, o, code)) <==> NothingWhole(r, leaks, o)
  {
    if forall code :: !WholeViolates(r, leaks, o, code) {
      assert !WholeViolates(r, leaks, o, RubricItemCount) && !WholeViolates(r, leaks, o, DuplicateRubricId);
      assert !WholeViolates(r, leaks, o, MissingRubricId) && !WholeViolates(r, leaks, o, PrivateContentLeak);
      assert !WholeViolates(r, leaks, o, MissingPointsTooLong) && !WholeViolates(r, leaks, o, IrrelevantPoints);
    }
  }

  /** Nothing is violated about the awards, the recommendation or the whole. */
  lemma NothingViolated(r: Request, leaks: Leakage, o: AnswerEvaluation)
    ensures (forall code :: !Violates(r, leaks, o, code)) <==>
              && (forall code :: IsAwardCode(code) ==> !SomeAward(WeightTable(r.question.rubric), EvidenceIds(r), leaks, o.rubricItems, code))
              && (forall code :: !RecommendationViolates(r, o.classification, o.recommended, code))
              && (forall code :: !WholeViolates(r, leaks, o, code))
  {
    var w, e := WeightTable(r.question.rubric), EvidenceIds(r);
    if code :| Violates(r, leaks, o, code) {
      PartViolates(r, leaks, o, code);
    }
    if code :| IsAwardCode(code) && SomeAward(w, e, leaks, o.rubricItems, code) {
      PartViolates(r, leaks, o, code);
    }
    if code :| RecommendationViolates(r, o.classification, o.recommended, code) {
      PartViolates(r, leaks, o, code);
    }
    if code :| WholeViolates(r, leaks, o, code) {
      PartViolates(r, leaks, o, code);
    }
  }

  lemma NothingMissed(r: Request, o: AnswerEvaluation, leaks: Leakage)
    requires ValidRubric(r.question.rubric) && |o.rubricItems| == |r.question.rubric| && NoDup(AwardIds(o.rubricItems)) && NonNegative(o.rubricItems)
    requires forall code :: IsAwardCode(code) ==> !SomeAward(WeightTable(r.question.rubric), EvidenceIds(r), leaks, o.rubricItems, code)
    ensures !Misses(WeightTable(r.question.rubric), o.rubricItems)
  {
    AllFitByCodes(WeightTable(r.question.rubric), EvidenceIds(r), leaks, o.rubricItems);
    AwardsAreABijection(r.question.rubric, o.rubricItems, EvidenceIds(r));
    WeightTableKeys(r.question.rubric);
    forall id | id in WeightTable(r.question.rubric) ensures id in AwardIds(o.rubricItems) {
      assert id in multiset(RubricIds(r.question.rubric));
      assert id in multiset(AwardIds(o.rubricItems));
    }
  }

  /** For a valid rubric, distinct goals and points that are not negative: an output violates no code if and only if it
      is clean. */
  lemma CleanMeans(r: Request, leaks: Leakage, o: AnswerEvaluation)
    requires ValidRubric(r.question.rubric) && NoDup(GoalIds(r.question.followUpGoals)) && NonNegative(o.rubricItems)
    ensures (forall code :: !Violates(r, leaks, o, code)) <==> CleanOutput(r, leaks, o)
  {
    NothingViolated(r, leaks, o);
    WholeIs(r, leaks, o);
    TextsAreAllPoints(o.rubricItems);
    LettersAreCharacters(AllPoints(o.rubricItems));
    EngineEffects.DistinctAwards(o.rubricItems);
    AwardsAreClean(r, leaks, o);
    RecommendationIsClean(r, o);
    if CleanOutput(r, leaks, o) {
      NothingMissed(r, o, leaks);
    }
  }
}
