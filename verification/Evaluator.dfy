/** The checks on a model's evaluation of an answer (apps/server/src/answer-evaluation-model.ts,
    `validateDomainOutput`, `validateRecommendation`, `isPurposeCompatible`). */
module Evaluator {
  import opened Basics
  import opened Sequences
  import opened TextOrder
  import opened InterviewModel
  import opened Scoring
  import opened Engine
  import opened Codec
  import opened Issues

  datatype Request = Request(question: Question, answerMaterial: seq<AnswerMaterial>, usedGoals: set<Id>)

  /** The tests for private content; they are parameters of the model. */
  datatype Leakage = Leakage(exposes: string -> bool, exposesTogether: seq<string> -> bool)

  const MAX_POINTS_PER_ITEM: nat := 6
  const MAX_POINT_CHARACTERS: nat := 300
  const MAX_TOTAL_CHARACTERS: nat := 1200

  datatype Code =
    | RubricItemCount
    | DuplicateRubricId
    | UnknownRubricId
    | PointsExceedWeight
    | EvidenceRequired
    | UnknownEvidence
    | TooManyMissingPoints
    | MissingPointsRequired
    | UnexpectedMissingPoints
    | InvalidPointLength
    | PrivateContentLeak
    | MissingRubricId
    | MissingPointsTooLong
    | IrrelevantPoints
    | ClarificationRequired
    | UsedGoal
    | KindAlreadyUsed
    | IncompatiblePurpose
    | UnknownFollowUpGoal
    | KindMismatch
    | ClassificationPurposeMismatch
    | DomainRejection

  // ---------- what each code means ----------

  function UsedKinds(r: Request): set<FollowUpKind> {
    set g | g in r.question.followUpGoals && g.id in r.usedGoals :: g.kind
  }

  predicate IsPurposeCompatible(kind: FollowUpKind, purpose: FollowUpPurpose) {
    if kind == Depth then purpose == DepthPurpose else purpose != DepthPurpose
  }

  function EvidenceIds(r: Request): set<Id> {
    ToSet(MaterialIds(r.answerMaterial))
  }

  function AllPoints(awards: seq<Award>): seq<string> {
    if awards == [] then [] else AllPoints(awards[..|awards| - 1]) + awards[|awards| - 1].missingOrIncorrectPoints
  }

  function Characters(points: seq<string>): nat {
    if points == [] then 0 else Characters(points[..|points| - 1]) + |points[|points| - 1]|
  }

  predicate Strays(evidence: set<Id>, ids: seq<Id>) {
    exists id :: id in ids && id !in evidence
  }

  predicate Misshapen(points: seq<string>) {
    exists point :: point in points && (!NonBlank(point) || |point| > MAX_POINT_CHARACTERS)
  }

  predicate Leaks(leaks: Leakage, points: seq<string>) {
    exists point :: point in points && leaks.exposes(point)
  }

  /** What is wrong with one award on its own. */
  predicate AwardViolates(w: map<Id, int>, evidence: set<Id>, leaks: Leakage, a: Award, code: Code) {
    match code
    case UnknownRubricId => a.rubricItemId !in w
    case PointsExceedWeight => a.rubricItemId in w && a.awardedPoints > w[a.rubricItemId]
    case EvidenceRequired => a.awardedPoints > 0 && a.evidenceMaterialIds == []
    case UnknownEvidence => Strays(evidence, a.evidenceMaterialIds)
    case TooManyMissingPoints => |a.missingOrIncorrectPoints| > MAX_POINTS_PER_ITEM
    case MissingPointsRequired => a.rubricItemId in w && a.awardedPoints < w[a.rubricItemId] && a.missingOrIncorrectPoints == []
    case UnexpectedMissingPoints => a.rubricItemId in w && a.awardedPoints == w[a.rubricItemId] && a.missingOrIncorrectPoints != []
    case InvalidPointLength => Misshapen(a.missingOrIncorrectPoints)
    case PrivateContentLeak => Leaks(leaks, a.missingOrIncorrectPoints)
    case _ => false
  }

  predicate SomeAward(w: map<Id, int>, evidence: set<Id>, leaks: Leakage, awards: seq<Award>, code: Code) {
    exists k :: 0 <= k < |awards| && AwardViolates(w, evidence, leaks, awards[k], code)
  }

  /** What is wrong with the recommendation, or with its absence. */
  predicate RecommendationViolates(r: Request, classification: Classification, recommended: Option<Recommendation>, code: Code) {
    match recommended
    case None => code == ClarificationRequired && classification == Irrelevant && Clarification !in UsedKinds(r)
    case Some(f) =>
      var goal := FindGoal(r.question.followUpGoals, f.goalId);
      match code
      case UsedGoal => f.goalId in r.usedGoals
      case KindAlreadyUsed => f.kind in UsedKinds(r)
      case IncompatiblePurpose => !IsPurposeCompatible(f.kind, f.purpose)
      case UnknownFollowUpGoal => goal.None?
      case KindMismatch => goal.Some? && goal.value.kind != f.kind
      case ClassificationPurposeMismatch => (f.purpose == IrrelevantResponseClarification) != (classification == Irrelevant)
      case _ => false
  }

  /** Some rubric item has no award. */
  predicate Misses(w: map<Id, int>, awards: seq<Award>) {
    exists id :: id in w && id !in AwardIds(awards)
  }

  /** Everything the codes can mean, apart from the final scoring. */
  predicate Violates(r: Request, leaks: Leakage, o: AnswerEvaluation, code: Code) {
    var w := WeightTable(r.question.rubric);
    match code
    case RubricItemCount => |o.rubricItems| != |r.question.rubric|
    case DuplicateRubricId => !NoDup(AwardIds(o.rubricItems))
    case MissingRubricId => Misses(w, o.rubricItems)
    case PrivateContentLeak =>
      SomeAward(w, EvidenceIds(r), leaks, o.rubricItems, code) || leaks.exposesTogether(AllPoints(o.rubricItems))
    case MissingPointsTooLong => Characters(AllPoints(o.rubricItems)) > MAX_TOTAL_CHARACTERS
    case IrrelevantPoints => o.classification == Irrelevant && TotalPoints(o.rubricItems) != 0
    case DomainRejection => false
    case _ =>
      || SomeAward(w, EvidenceIds(r), leaks, o.rubricItems, code)
      || RecommendationViolates(r, o.classification, o.recommended, code)
  }

  // ---------- the loops ----------

  function PointCodes(leaks: Leakage, points: seq<string>): set<Code> {
    If(Misshapen(points), InvalidPointLength) + If(Leaks(leaks, points), PrivateContentLeak)
  }

  lemma PointsSnoc(leaks: Leakage, points: seq<string>, k: nat)
    requires k < |points|
    ensures Misshapen(points[..k + 1]) <==> Misshapen(points[..k]) || !NonBlank(points[k]) || |points[k]| > MAX_POINT_CHARACTERS
    ensures Leaks(leaks, points[..k + 1]) <==> Leaks(leaks, points[..k]) || leaks.exposes(points[k])
    ensures Characters(points[..k + 1]) == Characters(points[..k]) + |points[k]|
  {
    assert points[..k + 1] == points[..k] + [points[k]];
    assert points[..k + 1][..k] == points[..k];
  }

  lemma PointCodesSnoc(leaks: Leakage, points: seq<string>, k: nat)
    requires k < |points|
    ensures PointCodes(leaks, points[..k + 1])
            == PointCodes(leaks, points[..k]) + If(!NonBlank(points[k]) || |points[k]| > MAX_POINT_CHARACTERS, InvalidPointLength)
               + If(leaks.exposes(points[k]), PrivateContentLeak)
  {
    PointsSnoc(leaks, points, k);
  }

  lemma StraysSnoc(evidence: set<Id>, ids: seq<Id>, k: nat)
    requires k < |ids|
    ensures If(Strays(evidence, ids[..k + 1]), UnknownEvidence)
            == If(Strays(evidence, ids[..k]), UnknownEvidence) + If(ids[k] !in evidence, UnknownEvidence)
  {
    assert ids[..k + 1] == ids[..k] + [ids[k]];
  }

  /** The issues of the texts of one award. */
  method CheckPoints(leaks: Leakage, index: nat, points: seq<string>) returns (issues: seq<Issue<Code>>, characters: nat)
    ensures Codes(issues) == PointCodes(leaks, points)
    ensures characters == Characters(points)
  {
    NoCodes<Code>();
    issues, characters := [], 0;
    for k := 0 to |points|
      invariant Codes(issues) == PointCodes(leaks, points[..k])
      invariant characters == Characters(points[..k])
    {
      var point := points[k];
      PointsSnoc(leaks, points, k);
      PointCodesSnoc(leaks, points, k);
      characters := characters + |point|;
      issues := PushIf(!NonBlank(point) || |point| > MAX_POINT_CHARACTERS, issues, Issue(Some(index), Some(k), InvalidPointLength));
      issues := PushIf(leaks.exposes(point), issues, Issue(Some(index), Some(k), PrivateContentLeak));
    }
    assert points[..|points|] == points;
  }

  method CheckEvidence(evidence: set<Id>, index: nat, ids: seq<Id>) returns (issues: seq<Issue<Code>>)
    ensures Codes(issues) == If(Strays(evidence, ids), UnknownEvidence)
  {
    NoCodes<Code>();
    issues := [];
    for k := 0 to |ids|
      invariant Codes(issues) == If(Strays(evidence, ids[..k]), UnknownEvidence)
    {
      StraysSnoc(evidence, ids, k);
      issues := PushIf(ids[k] !in evidence, issues, Issue(Some(index), Some(k), UnknownEvidence));
    }
    assert ids[..|ids|] == ids;
  }

  function ItemCodes(w: map<Id, int>, a: Award, seen: set<Id>): set<Code> {
    {} + If(a.rubricItemId in seen, DuplicateRubricId) + If(a.rubricItemId !in w, UnknownRubricId)
    + If(a.rubricItemId in w && a.awardedPoints > w[a.rubricItemId], PointsExceedWeight)
    + If(a.awardedPoints > 0 && a.evidenceMaterialIds == [], EvidenceRequired)
  }

  /** The issues of an award's item, points and lack of evidence. */
  method CheckItem(w: map<Id, int>, index: nat, a: Award, seen: set<Id>) returns (issues: seq<Issue<Code>>)
    ensures Codes(issues) == ItemCodes(w, a, seen)
  {
    NoCodes<Code>();
    issues := PushIf(a.rubricItemId in seen, [], Issue(Some(index), None, DuplicateRubricId));
    issues := PushIf(a.rubricItemId !in w, issues, Issue(Some(index), None, UnknownRubricId));
    issues := PushIf(a.rubricItemId in w && a.awardedPoints > w[a.rubricItemId], issues, Issue(Some(index), None, PointsExceedWeight));
    issues := PushIf(a.awardedPoints > 0 && |a.evidenceMaterialIds| == 0, issues, Issue(Some(index), None, EvidenceRequired));
  }

  function CountCodes(w: map<Id, int>, a: Award): set<Code> {
    {} + If(|a.missingOrIncorrectPoints| > MAX_POINTS_PER_ITEM, TooManyMissingPoints)
    + If(a.rubricItemId in w && a.awardedPoints < w[a.rubricItemId] && a.missingOrIncorrectPoints == [], MissingPointsRequired)
    + If(a.rubricItemId in w && a.awardedPoints == w[a.rubricItemId] && a.missingOrIncorrectPoints != [], UnexpectedMissingPoints)
  }

  /** The issues of the number of missing points. */
  method CheckPointCount(w: map<Id, int>, index: nat, a: Award) returns (issues: seq<Issue<Code>>)
    ensures Codes(issues) == CountCodes(w, a)
  {
    NoCodes<Code>();
    var known, points := a.rubricItemId in w, a.missingOrIncorrectPoints;
    issues := PushIf(|points| > MAX_POINTS_PER_ITEM, [], Issue(Some(index), None, TooManyMissingPoints));
    issues := PushIf(known && a.awardedPoints < w[a.rubricItemId] && |points| == 0, issues, Issue(Some(index), None, MissingPointsRequired));
    issues := PushIf(known && a.awardedPoints == w[a.rubricItemId] && |points| > 0, issues, Issue(Some(index), None, UnexpectedMissingPoints));
  }

  lemma ItemCodesMean(w: map<Id, int>, a: Award, seen: set<Id>, code: Code)
    ensures code in ItemCodes(w, a, seen) <==>
              match code
              case DuplicateRubricId => a.rubricItemId in seen
              case UnknownRubricId => a.rubricItemId !in w
              case PointsExceedWeight => a.rubricItemId in w && a.awardedPoints > w[a.rubricItemId]
              case EvidenceRequired => a.awardedPoints > 0 && a.evidenceMaterialIds == []
              case _ => false
  {
  }

  lemma CountCodesMean(w: map<Id, int>, a: Award, code: Code)
    ensures code in CountCodes(w, a) <==>
              match code
              case TooManyMissingPoints => |a.missingOrIncorrectPoints| > MAX_POINTS_PER_ITEM
              case MissingPointsRequired => a.rubricItemId in w && a.awardedPoints < w[a.rubricItemId] && a.missingOrIncorrectPoints == []
              case UnexpectedMissingPoints => a.rubricItemId in w && a.awardedPoints == w[a.rubricItemId] && a.missingOrIncorrectPoints != []
              case _ => false
  {
  }

  lemma AwardCodesMean(w: map<Id, int>, evidence: set<Id>, leaks: Leakage, a: Award, seen: set<Id>, code: Code)
    ensures code in ItemCodes(w, a, seen) + If(Strays(evidence, a.evidenceMaterialIds), UnknownEvidence)
                    + CountCodes(w, a) + PointCodes(leaks, a.missingOrIncorrectPoints)
            <==> (code == DuplicateRubricId && a.rubricItemId in seen) || AwardViolates(w, evidence, leaks, a, code)
  {
    ItemCodesMean(w, a, seen, code);
    CountCodesMean(w, a, code);
  }

  /** The issues of one award, whether its item was seen before, and the length of its texts. */
  method CheckAward(w: map<Id, int>, evidence: set<Id>, leaks: Leakage, index: nat, a: Award, seen: set<Id>)
    returns (issues: seq<Issue<Code>>, characters: nat)
    ensures forall code :: code in Codes(issues) <==>
              (code == DuplicateRubricId && a.rubricItemId in seen) || AwardViolates(w, evidence, leaks, a, code)
    ensures characters == Characters(a.missingOrIncorrectPoints)
  {
    issues := CheckItem(w, index, a, seen);
    var evidenceIssues := CheckEvidence(evidence, index, a.evidenceMaterialIds);
    issues := Join(issues, evidenceIssues);
    var count := CheckPointCount(w, index, a);
    issues := Join(issues, count);
    var points;
    points, characters := CheckPoints(leaks, index, a.missingOrIncorrectPoints);
    issues := Join(issues, points);
    forall code ensures code in Codes(issues) <==>
              (code == DuplicateRubricId && a.rubricItemId in seen) || AwardViolates(w, evidence, leaks, a, code) {
      AwardCodesMean(w, evidence, leaks, a, seen, code);
    }
  }

  /** The codes of a list of awards: repeated items, and everything wrong with single awards. */
  ghost function AwardsCodes(w: map<Id, int>, evidence: set<Id>, leaks: Leakage, awards: seq<Award>): set<Code> {
    set code: Code | (code == DuplicateRubricId && !NoDup(AwardIds(awards))) || SomeAward(w, evidence, leaks, awards, code)
  }

  lemma NoAwardCodes(w: map<Id, int>, evidence: set<Id>, leaks: Leakage)
    ensures AwardsCodes(w, evidence, leaks, []) == {}
  {
    assert AwardIds([]) == [] && NoDup<Id>([]);
    forall code: Code ensures code !in AwardsCodes(w, evidence, leaks, []) {
    }
  }

  lemma SomeAwardSnoc(w: map<Id, int>, evidence: set<Id>, leaks: Leakage, awards: seq<Award>, k: nat, code: Code)
    requires k < |awards|
    ensures SomeAward(w, evidence, leaks, awards[..k + 1], code)
            <==> SomeAward(w, evidence, leaks, awards[..k], code) || AwardViolates(w, evidence, leaks, awards[k], code)
  {
    if SomeAward(w, evidence, leaks, awards[..k], code) {
      SomeAwardMore(w, evidence, leaks, awards, k, code);
    }
    if AwardViolates(w, evidence, leaks, awards[k], code) {
      assert awards[..k + 1][k] == awards[k];
    }
    if SomeAward(w, evidence, leaks, awards[..k + 1], code) {
      var i :| 0 <= i < k + 1 && AwardViolates(w, evidence, leaks, awards[..k + 1][i], code);
      assert i < k ==> awards[..k][i] == awards[..k + 1][i];
    }
  }

  lemma SomeAwardMore(w: map<Id, int>, evidence: set<Id>, leaks: Leakage, awards: seq<Award>, k: nat, code: Code)
    requires k < |awards| && SomeAward(w, evidence, leaks, awards[..k], code)
    ensures SomeAward(w, evidence, leaks, awards[..k + 1], code)
  {
    var i :| 0 <= i < k && AwardViolates(w, evidence, leaks, awards[..k][i], code);
    assert awards[..k + 1][i] == awards[..k][i];
  }

  lemma AwardsCodesSnoc(w: map<Id, int>, evidence: set<Id>, leaks: Leakage, awards: seq<Award>, k: nat, found: set<Code>)
    requires k < |awards|
    requires forall code :: code in found <==>
               (code == DuplicateRubricId && awards[k].rubricItemId in ToSet(AwardIds(awards[..k])))
               || AwardViolates(w, evidence, leaks, awards[k], code)
    ensures AwardsCodes(w, evidence, leaks, awards[..k + 1]) == AwardsCodes(w, evidence, leaks, awards[..k]) + found
  {
    AwardStep(awards, k);
    forall code ensures code in AwardsCodes(w, evidence, leaks, awards[..k + 1])
                        <==> code in AwardsCodes(w, evidence, leaks, awards[..k]) || code in found {
      SomeAwardSnoc(w, evidence, leaks, awards, k, code);
    }
  }

  lemma {:induction false} CharactersAppend(a: seq<string>, b: seq<string>)
    ensures Characters(a + b) == Characters(a) + Characters(b)
  {
    if b == [] {
      assert a + b == a;
    } else {
      assert (a + b)[..|a + b| - 1] == a + b[..|b| - 1];
      CharactersAppend(a, b[..|b| - 1]);
    }
  }

  lemma AllPointsSnoc(awards: seq<Award>, k: nat)
    requires k < |awards|
    ensures AllPoints(awards[..k + 1]) == AllPoints(awards[..k]) + awards[k].missingOrIncorrectPoints
    ensures Characters(AllPoints(awards[..k + 1])) == Characters(AllPoints(awards[..k])) + Characters(awards[k].missingOrIncorrectPoints)
  {
    assert awards[..k + 1][..k] == awards[..k];
    CharactersAppend(AllPoints(awards[..k]), awards[k].missingOrIncorrectPoints);
  }

  /** The award loop: the issues of every award, with running totals. */
  method CheckEveryAward(w: map<Id, int>, evidence: set<Id>, leaks: Leakage, awards: seq<Award>)
    returns (issues: seq<Issue<Code>>, seen: set<Id>, characters: nat, points: int)
    ensures Codes(issues) == AwardsCodes(w, evidence, leaks, awards)
    ensures seen == ToSet(AwardIds(awards))
    ensures characters == Characters(AllPoints(awards)) && points == TotalPoints(awards)
  {
    NoCodes<Code>();
    NoAwardCodes(w, evidence, leaks);
    issues, seen, characters, points := [], {}, 0, 0;
    assert awards[..0] == [];
    for k := 0 to |awards|
      invariant Codes(issues) == AwardsCodes(w, evidence, leaks, awards[..k])
      invariant seen == ToSet(AwardIds(awards[..k]))
      invariant characters == Characters(AllPoints(awards[..k])) && points == TotalPoints(awards[..k])
    {
      var award := awards[k];
      var found, length := CheckAward(w, evidence, leaks, k, award, seen);
      AwardsCodesSnoc(w, evidence, leaks, awards, k, Codes(found));
      AwardStep(awards, k);
      AllPointsSnoc(awards, k);
      issues := Join(issues, found);
      seen := seen + {award.rubricItemId};
      characters := characters + length;
      points := points + award.awardedPoints;
    }
    assert awards[..|awards|] == awards;
  }

  /** The rubric items that no award names. */
  method CheckMissing(rubric: seq<RubricItem>, seen: set<Id>) returns (issues: seq<Issue<Code>>)
    ensures Codes(issues) == If(exists item :: item in rubric && item.id !in seen, MissingRubricId)
  {
    NoCodes<Code>();
    issues := [];
    for k := 0 to |rubric|
      invariant Codes(issues) == If(exists item :: item in rubric[..k] && item.id !in seen, MissingRubricId)
    {
      assert rubric[..k + 1] == rubric[..k] + [rubric[k]];
      MissingSnoc(rubric, seen, k);
      issues := PushIf(rubric[k].id !in seen, issues, Issue(None, None, MissingRubricId));
    }
    assert rubric[..|rubric|] == rubric;
  }

  lemma MissingSnoc(rubric: seq<RubricItem>, seen: set<Id>, k: nat)
    requires k < |rubric|
    ensures If(exists item :: item in rubric[..k + 1] && item.id !in seen, MissingRubricId)
            == If(exists item :: item in rubric[..k] && item.id !in seen, MissingRubricId) + If(rubric[k].id !in seen, MissingRubricId)
  {
    assert rubric[..k + 1] == rubric[..k] + [rubric[k]];
    assert rubric[k].id !in seen ==> rubric[k] in rubric[..k + 1];
  }

  /** The codes of the purpose of a recommended follow-up. */
  function PurposeCodes(f: Recommendation, classification: Classification): set<Code> {
    {} + If(!IsPurposeCompatible(f.kind, f.purpose), IncompatiblePurpose)
    + If((f.purpose == IrrelevantResponseClarification) != (classification == Irrelevant), ClassificationPurposeMismatch)
  }

  /** The codes of the goal of a recommended follow-up. */
  function GoalCodes(used: bool, kindUsed: bool, f: Recommendation, goal: Option<FollowUpGoal>): set<Code> {
    {} + If(used, UsedGoal) + If(kindUsed, KindAlreadyUsed) + If(goal.None?, UnknownFollowUpGoal)
    + If(goal.Some? && goal.value.kind != f.kind, KindMismatch)
  }

  function RecommendationCodes(r: Request, classification: Classification, recommended: Option<Recommendation>): set<Code> {
    match recommended
    case None => {} + If(classification == Irrelevant && Clarification !in UsedKinds(r), ClarificationRequired)
    case Some(f) =>
      GoalCodes(f.goalId in r.usedGoals, f.kind in UsedKinds(r), f, FindGoal(r.question.followUpGoals, f.goalId))
      + PurposeCodes(f, classification)
  }

  method ValidateGoal(used: bool, kindUsed: bool, f: Recommendation, goal: Option<FollowUpGoal>) returns (issues: seq<Issue<Code>>)
    ensures Codes(issues) == GoalCodes(used, kindUsed, f, goal)
  {
    NoCodes<Code>();
    issues := PushIf(used, [], Issue(None, None, UsedGoal));
    issues := PushIf(kindUsed, issues, Issue(None, None, KindAlreadyUsed));
    issues := PushIf(goal.None?, issues, Issue(None, None, UnknownFollowUpGoal));
    issues := PushIf(goal.Some? && goal.value.kind != f.kind, issues, Issue(None, None, KindMismatch));
  }

  method ValidatePurpose(f: Recommendation, classification: Classification) returns (issues: seq<Issue<Code>>)
    ensures Codes(issues) == PurposeCodes(f, classification)
  {
    NoCodes<Code>();
    issues := PushIf(!IsPurposeCompatible(f.kind, f.purpose), [], Issue(None, None, IncompatiblePurpose));
    issues := PushIf((f.purpose == IrrelevantResponseClarification) != (classification == Irrelevant), issues,
                     Issue(None, None, ClassificationPurposeMismatch));
  }

  method ValidateRecommendation(r: Request, classification: Classification, recommended: Option<Recommendation>) returns (issues: seq<Issue<Code>>)
    ensures Codes(issues) == RecommendationCodes(r, classification, recommended)
  {
    var usedKinds := UsedKinds(r);
    if recommended.None? {
      NoCodes<Code>();
      issues := PushIf(classification == Irrelevant && Clarification !in usedKinds, [], Issue(None, None, ClarificationRequired));
    } else {
      var f := recommended.value;
      var goalIssues := ValidateGoal(f.goalId in r.usedGoals, f.kind in usedKinds, f, FindGoal(r.question.followUpGoals, f.goalId));
      var purposeIssues := ValidatePurpose(f, classification);
      issues := Join(goalIssues, purposeIssues);
    }
  }

  lemma RecommendationCodesMean(r: Request, classification: Classification, recommended: Option<Recommendation>, code: Code)
    ensures code in RecommendationCodes(r, classification, recommended) <==> RecommendationViolates(r, classification, recommended, code)
  {
  }

  /** All codes before the scoring, from the codes of the awards and of the recommendation. */
  ghost function OutputCodes(count: bool, awards: set<Code>, missing: bool, together: bool, long: bool, irrelevant: bool,
                             recommendation: set<Code>): set<Code> {
    {} + If(count, RubricItemCount) + awards + If(missing, MissingRubricId) + If(together, PrivateContentLeak)
    + If(long, MissingPointsTooLong) + If(irrelevant, IrrelevantPoints) + recommendation
  }

  lemma OutputCodesMean(count: bool, awards: set<Code>, missing: bool, together: bool, long: bool, irrelevant: bool,
                        recommendation: set<Code>, code: Code)
    ensures code in OutputCodes(count, awards, missing, together, long, irrelevant, recommendation) <==>
              || (count && code == RubricItemCount) || code in awards || (missing && code == MissingRubricId)
              || (together && code == PrivateContentLeak) || (long && code == MissingPointsTooLong)
              || (irrelevant && code == IrrelevantPoints) || code in recommendation
  {
  }

  lemma MissingMeans(rubric: seq<RubricItem>, awards: seq<Award>)
    ensures (exists item :: item in rubric && item.id !in ToSet(AwardIds(awards)))
            <==> Misses(WeightTable(rubric), awards)
  {
    WeightTableKeys(rubric);
    if exists item :: item in rubric && item.id !in ToSet(AwardIds(awards)) {
      var item :| item in rubric && item.id !in ToSet(AwardIds(awards));
      var k :| 0 <= k < |rubric| && rubric[k] == item;
      assert RubricIds(rubric)[k] == item.id && item.id in ToSet(RubricIds(rubric));
    }
    if Misses(WeightTable(rubric), awards) {
      var id :| id in WeightTable(rubric) && id !in AwardIds(awards);
      assert id in ToSet(RubricIds(rubric));
      var k :| 0 <= k < |rubric| && RubricIds(rubric)[k] == id;
      assert rubric[k] in rubric && rubric[k].id !in ToSet(AwardIds(awards));
    }
  }

  /** Single awards never have the codes of totals and recommendations. */
  lemma AwardCodesOnly(w: map<Id, int>, evidence: set<Id>, leaks: Leakage, awards: seq<Award>, code: Code)
    ensures code in AwardsCodes(w, evidence, leaks, awards) <==>
              if code == DuplicateRubricId then !NoDup(AwardIds(awards)) else SomeAward(w, evidence, leaks, awards, code)
    ensures SomeAward(w, evidence, leaks, awards, code) ==>
              code.UnknownRubricId? || code.PointsExceedWeight? || code.EvidenceRequired? || code.UnknownEvidence? || code.TooManyMissingPoints?
              || code.MissingPointsRequired? || code.UnexpectedMissingPoints? || code.InvalidPointLength? || code.PrivateContentLeak?
  {
  }

  /** A code is among all codes exactly when it is violated. */
  lemma AllCodesMean(r: Request, leaks: Leakage, o: AnswerEvaluation, missing: bool, together: bool, code: Code)
    requires missing <==> Misses(WeightTable(r.question.rubric), o.rubricItems)
    requires together ==> leaks.exposesTogether(AllPoints(o.rubricItems))
    requires leaks.exposesTogether(AllPoints(o.rubricItems)) ==>
               together || SomeAward(WeightTable(r.question.rubric), EvidenceIds(r), leaks, o.rubricItems, PrivateContentLeak)
    ensures code in OutputCodes(|o.rubricItems| != |r.question.rubric|,
                                AwardsCodes(WeightTable(r.question.rubric), EvidenceIds(r), leaks, o.rubricItems), missing, together,
                                Characters(AllPoints(o.rubricItems)) > MAX_TOTAL_CHARACTERS,
                                o.classification == Irrelevant && TotalPoints(o.rubricItems) != 0,
                                RecommendationCodes(r, o.classification, o.recommended))
            <==> Violates(r, leaks, o, code)
  {
    var awards := AwardsCodes(WeightTable(r.question.rubric), EvidenceIds(r), leaks, o.rubricItems);
    OutputCodesMean(|o.rubricItems| != |r.question.rubric|, awards, missing, together, Characters(AllPoints(o.rubricItems)) > MAX_TOTAL_CHARACTERS,
                    o.classification == Irrelevant && TotalPoints(o.rubricItems) != 0, RecommendationCodes(r, o.classification, o.recommended), code);
    assert code in awards <==> AwardCode(r, leaks, o.rubricItems, code) by {
      AwardCodesOnly(WeightTable(r.question.rubric), EvidenceIds(r), leaks, o.rubricItems, code);
    }
    RecommendationCodesMean(r, o.classification, o.recommended, code);
    ViolatesSplits(r, leaks, o, code);
    assert (together && code == PrivateContentLeak) || AwardCode(r, leaks, o.rubricItems, code)
      <==> (leaks.exposesTogether(AllPoints(o.rubricItems)) && code == PrivateContentLeak) || AwardCode(r, leaks, o.rubricItems, code);
  }

  predicate AwardCode(r: Request, leaks: Leakage, awards: seq<Award>, code: Code) {
    if code == DuplicateRubricId then !NoDup(AwardIds(awards))
    else SomeAward(WeightTable(r.question.rubric), EvidenceIds(r), leaks, awards, code)
  }

  lemma ViolatesSplits(r: Request, leaks: Leakage, o: AnswerEvaluation, code: Code)
    ensures Violates(r, leaks, o, code) <==>
              || (|o.rubricItems| != |r.question.rubric| && code == RubricItemCount)
              || AwardCode(r, leaks, o.rubricItems, code)
              || (Misses(WeightTable(r.question.rubric), o.rubricItems) && code == MissingRubricId)
              || (leaks.exposesTogether(AllPoints(o.rubricItems)) && code == PrivateContentLeak)
              || (Characters(AllPoints(o.rubricItems)) > MAX_TOTAL_CHARACTERS && code == MissingPointsTooLong)
              || (o.classification == Irrelevant && TotalPoints(o.rubricItems) != 0 && code == IrrelevantPoints)
              || RecommendationViolates(r, o.classification, o.recommended, code)
  {
    AwardCodesOnly(WeightTable(r.question.rubric), EvidenceIds(r), leaks, o.rubricItems, code);
    RecommendationCodesOnly(r, o.classification, o.recommended, code);
  }

  lemma RecommendationCodesOnly(r: Request, classification: Classification, recommended: Option<Recommendation>, code: Code)
    ensures RecommendationViolates(r, classification, recommended, code) ==>
              code.ClarificationRequired? || code.UsedGoal? || code.KindAlreadyUsed? || code.IncompatiblePurpose?
              || code.UnknownFollowUpGoal? || code.KindMismatch? || code.ClassificationPurposeMismatch?
  {
  }

  /** The issues found before the scoring: each code is reported exactly when it is violated. */
  method CollectIssues(r: Request, leaks: Leakage, o: AnswerEvaluation) returns (issues: seq<Issue<Code>>)
    ensures forall code :: code in Codes(issues) <==> Violates(r, leaks, o, code)
  {
    var w := WeightTable(r.question.rubric);
    var evidence := EvidenceIds(r);
    NoCodes<Code>();
    issues := PushIf(|o.rubricItems| != |r.question.rubric|, [], Issue(None, None, RubricItemCount));
    var found, seen, characters, points := CheckEveryAward(w, evidence, leaks, o.rubricItems);
    issues := Join(issues, found);
    var missing := CheckMissing(r.question.rubric, seen);
    issues := Join(issues, missing);
    AwardCodesOnly(w, evidence, leaks, o.rubricItems, PrivateContentLeak);
    var together := PrivateContentLeak !in Codes(found) && leaks.exposesTogether(AllPoints(o.rubricItems));
    issues := PushIf(together, issues, Issue(None, None, PrivateContentLeak));
    issues := PushIf(characters > MAX_TOTAL_CHARACTERS, issues, Issue(None, None, MissingPointsTooLong));
    issues := PushIf(o.classification == Irrelevant && points != 0, issues, Issue(None, None, IrrelevantPoints));
    var recommendation := ValidateRecommendation(r, o.classification, o.recommended);
    issues := Join(issues, recommendation);
    MissingMeans(r.question.rubric, o.rubricItems);
    forall code ensures code in Codes(issues) <==> Violates(r, leaks, o, code) {
      AllCodesMean(r, leaks, o, exists item :: item in r.question.rubric && item.id !in seen, together, code);
    }
  }

  /** Every check on an output. Without other issues the output is scored, and a rejection is an issue too.
      An output is clean exactly when no code is violated and it can be scored; and every code but the
      rejection by the scoring is reported exactly when it is violated. */
  method ValidateDomainOutput(r: Request, leaks: Leakage, o: AnswerEvaluation) returns (issues: seq<Issue<Code>>)
    ensures issues == [] <==>
              && (forall code :: !Violates(r, leaks, o, code))
              && Acceptable(r.question.rubric, o.classification, o.rubricItems, EvidenceIds(r))
    ensures forall code :: code != DomainRejection ==> (code in Codes(issues) <==> Violates(r, leaks, o, code))
  {
    issues := CollectIssues(r, leaks, o);
    if |issues| == 0 {
      NoCodes<Code>();
      var scored := ScoreQuestion(r.question.rubric, EvaluationInput(Id("validation"), o.classification, o.rubricItems), EvidenceIds(r));
      issues := PushIf(scored.Err?, issues, Issue(None, None, DomainRejection));
    } else {
      assert issues[|issues| - 1].code in Codes(issues);
    }
  }
}
