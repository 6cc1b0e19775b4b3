/** Rubric validation, question scoring and score aggregation (packages/domain/src/scoring.ts). */
module Scoring {
  import opened Basics
  import opened Sequences
  import opened InterviewModel

  // ---------- rubrics ----------

  datatype RubricFault = RubricEmpty | DuplicateRubricItem(id: Id) | InvalidWeight(id: Id) | InvalidTotal(total: int)

  function RubricIds(rubric: seq<RubricItem>): (r: seq<Id>) {
    Map((item: RubricItem) => item.id, rubric)
  }

  function Weights(rubric: seq<RubricItem>): (r: seq<int>) {
    Map((item: RubricItem) => item.weight, rubric)
  }

  predicate ValidRubric(rubric: seq<RubricItem>) {
    && rubric != []
    && NoDup(RubricIds(rubric))
    && (forall item :: item in rubric ==> 1 <= item.weight <= 100)
    && Sum(Weights(rubric)) == 100
  }

  lemma SumSnoc(s: seq<int>, k: nat)
    requires k < |s|
    ensures Sum(s[..k + 1]) == Sum(s[..k]) + s[k]
  {
    assert s[..k + 1] == s[..k] + [s[k]];
    SumAppend(s[..k], [s[k]]);
  }

  method ValidateRubric(rubric: seq<RubricItem>) returns (r: Result<nat, RubricFault>)
    ensures r.Ok? <==> ValidRubric(rubric)
    ensures r.Ok? ==> r.value == |rubric|
    ensures r == Err(RubricEmpty) <==> rubric == []
    ensures r.Err? && r.error.DuplicateRubricItem? ==>
              exists i, j :: 0 <= i < j < |rubric| && rubric[i].id == rubric[j].id == r.error.id
    ensures r.Err? && r.error.InvalidWeight? ==>
              exists i :: 0 <= i < |rubric| && rubric[i].id == r.error.id && !(1 <= rubric[i].weight <= 100)
    ensures r.Err? && r.error.InvalidTotal? ==>
              NoDup(RubricIds(rubric)) && r.error.total == Sum(Weights(rubric)) != 100
  {
    if |rubric| == 0 {
      return Err(RubricEmpty);
    }
    NoDupByIndex(RubricIds(rubric));
    var itemIds: set<Id> := {};
    var totalWeight := 0;
    for k := 0 to |rubric|
      invariant itemIds == set i | 0 <= i < k :: rubric[i].id
      invariant totalWeight == Sum(Weights(rubric)[..k])
      invariant forall i, j :: 0 <= i < j < k ==> rubric[i].id != rubric[j].id
      invariant forall i :: 0 <= i < k ==> 1 <= rubric[i].weight <= 100
    {
      var item := rubric[k];
      if item.id in itemIds {
        assert RubricIds(rubric)[k] == item.id;
        return Err(DuplicateRubricItem(item.id));
      }
      itemIds := itemIds + {item.id};
      if item.weight < 1 || item.weight > 100 {
        return Err(InvalidWeight(item.id));
      }
      SumSnoc(Weights(rubric), k);
      totalWeight := totalWeight + item.weight;
    }
    assert Weights(rubric)[..|rubric|] == Weights(rubric);
    if totalWeight != 100 {
      return Err(InvalidTotal(totalWeight));
    }
    return Ok(|rubric|);
  }

  // ---------- awards ----------

  datatype AwardFault =
    | BadRubric(fault: RubricFault)
    | AwardCountMismatch
    | InvalidRubricItem
    | DuplicateAward
    | InvalidAwardedPoints
    | MissingEvidence
    | InvalidEvidence
    | IrrelevantAwardedPoints

  function AwardIds(awards: seq<Award>): (r: seq<Id>) {
    Map((award: Award) => award.rubricItemId, awards)
  }

  function Points(awards: seq<Award>): (r: seq<int>) {
    Map((award: Award) => award.awardedPoints, awards)
  }

  function TotalPoints(awards: seq<Award>): int {
    Sum(Points(awards))
  }

  /** Lookup table from rubric item to weight; a later item with the same id replaces an earlier one. */
  function WeightTable(rubric: seq<RubricItem>): map<Id, int> {
    if rubric == [] then map[]
    else WeightTable(rubric[..|rubric| - 1])[rubric[|rubric| - 1].id := rubric[|rubric| - 1].weight]
  }

  /** One award against the rubric and the answer material: known item, points in range, evidence. */
  predicate AwardFits(w: map<Id, int>, award: Award, materials: set<Id>) {
    && award.rubricItemId in w
    && 0 <= award.awardedPoints <= w[award.rubricItemId]
    && (award.awardedPoints > 0 ==> award.evidenceMaterialIds != [])
    && (forall id :: id in award.evidenceMaterialIds ==> id in materials)
  }

  /** The evaluations `ScoreQuestion` accepts. */
  predicate Acceptable(rubric: seq<RubricItem>, classification: Classification, awards: seq<Award>, materials: set<Id>) {
    && ValidRubric(rubric)
    && |awards| == |rubric|
    && (forall award :: award in awards ==> AwardFits(WeightTable(rubric), award, materials))
    && NoDup(AwardIds(awards))
    && (classification == Irrelevant ==> TotalPoints(awards) == 0)
  }

  function OutcomeOf(classification: Classification, awards: seq<Award>): Outcome {
    if classification == Irrelevant then OffTopic
    else if TotalPoints(awards) == 0 then Incorrect
    else Scored(TotalPoints(awards))
  }

  function Evaluated(input: EvaluationInput): QuestionEvaluation {
    QuestionEvaluation(input.id, input.classification, input.rubricItems,
                       OutcomeOf(input.classification, input.rubricItems))
  }

  predicate PointsInRange(awards: seq<Award>) {
    forall award :: award in awards ==> 0 <= award.awardedPoints <= 100
  }

  /** One more award in a prefix of the awards. */
  lemma AwardStep(awards: seq<Award>, k: nat)
    requires k < |awards|
    ensures ToSet(AwardIds(awards[..k + 1])) == ToSet(AwardIds(awards[..k])) + {awards[k].rubricItemId}
    ensures NoDup(AwardIds(awards[..k + 1])) <==> NoDup(AwardIds(awards[..k])) && awards[k].rubricItemId !in AwardIds(awards[..k])
    ensures NoDup(AwardIds(awards)) ==> NoDup(AwardIds(awards[..k + 1]))
    ensures TotalPoints(awards[..k + 1]) == TotalPoints(awards[..k]) + awards[k].awardedPoints
  {
    assert awards[..k + 1] == awards[..k] + [awards[k]];
    assert AwardIds(awards[..k + 1]) == AwardIds(awards[..k]) + [awards[k].rubricItemId];
    assert Points(awards[..k + 1]) == Points(awards[..k]) + [awards[k].awardedPoints];
    NoDupSnoc(AwardIds(awards[..k]), awards[k].rubricItemId);
    SumAppend(Points(awards[..k]), [awards[k].awardedPoints]);
    if NoDup(AwardIds(awards)) {
      NoDupPrefix(AwardIds(awards), k + 1);
      assert AwardIds(awards)[..k + 1] == AwardIds(awards[..k + 1]);
    }
  }

  method DeriveEvaluatedOutcome(classification: Classification, awards: seq<Award>)
    returns (r: Result<Outcome, AwardFault>)
    ensures r.Ok? <==>
              && NoDup(AwardIds(awards)) && PointsInRange(awards)
              && (if classification == Irrelevant then TotalPoints(awards) == 0 else TotalPoints(awards) <= 100)
    ensures r.Ok? ==> r.value == OutcomeOf(classification, awards)
    ensures r == Err(DuplicateAward) ==> !NoDup(AwardIds(awards))
    ensures r == Err(IrrelevantAwardedPoints) ==> classification == Irrelevant && TotalPoints(awards) != 0
    ensures r == Err(InvalidAwardedPoints) ==> !PointsInRange(awards) || (NoDup(AwardIds(awards)) && TotalPoints(awards) > 100)
    ensures r.Err? ==> r.error.DuplicateAward? || r.error.InvalidAwardedPoints? || r.error.IrrelevantAwardedPoints?
  {
    var awardedIds: set<Id> := {};
    var score := 0;
    for k := 0 to |awards|
      invariant awardedIds == ToSet(AwardIds(awards[..k])) && NoDup(AwardIds(awards[..k]))
      invariant score == TotalPoints(awards[..k])
      invariant forall i :: 0 <= i < k ==> 0 <= awards[i].awardedPoints <= 100
    {
      var award := awards[k];
      AwardStep(awards, k);
      if award.rubricItemId in awardedIds {
        return Err(DuplicateAward);
      }
      awardedIds := awardedIds + {award.rubricItemId};
      if award.awardedPoints < 0 || award.awardedPoints > 100 {
        assert award in awards;
        return Err(InvalidAwardedPoints);
      }
      score := score + award.awardedPoints;
    }
    assert awards[..|awards|] == awards;
    if classification == Irrelevant {
      if score != 0 {
        return Err(IrrelevantAwardedPoints);
      }
      return Ok(OffTopic);
    }
    if score == 0 {
      return Ok(Incorrect);
    }
    if score > 100 {
      return Err(InvalidAwardedPoints);
    }
    return Ok(Scored(score));
  }

  /** Why one award is refused; `None` exactly when it fits. */
  function AwardProblem(w: map<Id, int>, award: Award, materials: set<Id>): (r: Option<AwardFault>)
    ensures r == None <==> AwardFits(w, award, materials)
    ensures r.Some? ==> r.value in {InvalidRubricItem, InvalidAwardedPoints, MissingEvidence, InvalidEvidence}
  {
    if award.rubricItemId !in w then Some(InvalidRubricItem)
    else if award.awardedPoints < 0 || award.awardedPoints > w[award.rubricItemId] then Some(InvalidAwardedPoints)
    else if award.awardedPoints > 0 && award.evidenceMaterialIds == [] then Some(MissingEvidence)
    else if exists id :: id in award.evidenceMaterialIds && id !in materials then Some(InvalidEvidence)
    else None
  }

  /** The award loop: the first award that does not fit decides the error. */
  method CheckAwards(w: map<Id, int>, awards: seq<Award>, materials: set<Id>) returns (fault: Option<AwardFault>)
    ensures fault == None <==> forall i :: 0 <= i < |awards| ==> AwardFits(w, awards[i], materials)
    ensures fault.Some? ==>
              exists k :: 0 <= k < |awards| && fault == AwardProblem(w, awards[k], materials)
                && forall i :: 0 <= i < k ==> AwardFits(w, awards[i], materials)
  {
    for k := 0 to |awards|
      invariant forall i :: 0 <= i < k ==> AwardFits(w, awards[i], materials)
    {
      var award := awards[k];
      if award.rubricItemId !in w {
        return Some(InvalidRubricItem);
      }
      if award.awardedPoints < 0 || award.awardedPoints > w[award.rubricItemId] {
        return Some(InvalidAwardedPoints);
      }
      if award.awardedPoints > 0 && |award.evidenceMaterialIds| == 0 {
        return Some(MissingEvidence);
      }
      for e := 0 to |award.evidenceMaterialIds|
        invariant forall i :: 0 <= i < e ==> award.evidenceMaterialIds[i] in materials
      {
        if award.evidenceMaterialIds[e] !in materials {
          assert AwardProblem(w, award, materials) == Some(InvalidEvidence);
          return Some(InvalidEvidence);
        }
      }
    }
    return None;
  }

  /** Scores one question: accepted exactly when `Acceptable`, and then with the derived outcome. The
      derivation can only fail on a repeated award or an irrelevant answer with points: its
      total-over-100 branch is dead here. */
  method ScoreQuestion(rubric: seq<RubricItem>, input: EvaluationInput, materials: set<Id>)
    returns (r: Result<QuestionEvaluation, AwardFault>)
    ensures r.Ok? <==> Acceptable(rubric, input.classification, input.rubricItems, materials)
    ensures r.Ok? ==> r.value == Evaluated(input)
    ensures r.Err? && r.error.BadRubric? <==> !ValidRubric(rubric)
    ensures r == Err(AwardCountMismatch) <==> ValidRubric(rubric) && |input.rubricItems| != |rubric|
    ensures r == Err(DuplicateAward) ==> !NoDup(AwardIds(input.rubricItems))
    ensures r == Err(IrrelevantAwardedPoints) ==>
              input.classification == Irrelevant && TotalPoints(input.rubricItems) != 0
    ensures r.Err? && r.error in {InvalidRubricItem, InvalidAwardedPoints, MissingEvidence, InvalidEvidence} ==>
              exists a :: a in input.rubricItems && AwardProblem(WeightTable(rubric), a, materials) == Some(r.error)
  {
    var valid := ValidateRubric(rubric);
    if valid.Err? {
      return Err(BadRubric(valid.error));
    }
    var awards := input.rubricItems;
    if |awards| != |rubric| {
      return Err(AwardCountMismatch);
    }
    var fault := CheckAwards(WeightTable(rubric), awards, materials);
    if fault.Some? {
      assert exists a :: a in awards && AwardProblem(WeightTable(rubric), a, materials) == fault;
      return Err(fault.value);
    }
    FittingPointsInRange(rubric, awards, materials);
    if NoDup(AwardIds(awards)) {
      AwardsAreABijection(rubric, awards, materials);
    }
    var outcome := DeriveEvaluatedOutcome(input.classification, awards);
    if outcome.Err? {
      return Err(outcome.error);
    }
    return Ok(QuestionEvaluation(input.id, input.classification, awards, outcome.value));
  }

  lemma {:induction false} WeightTableKeys(rubric: seq<RubricItem>)
    ensures WeightTable(rubric).Keys == ToSet(RubricIds(rubric))
  {
    if rubric != [] {
      var n := |rubric| - 1;
      WeightTableKeys(rubric[..n]);
      assert RubricIds(rubric) == RubricIds(rubric[..n]) + [rubric[n].id];
    }
  }

  lemma {:induction false} WeightTableValues(rubric: seq<RubricItem>)
    ensures NoDup(RubricIds(rubric)) ==>
              forall item :: item in rubric ==> item.id in WeightTable(rubric) && WeightTable(rubric)[item.id] == item.weight
  {
    if rubric != [] {
      var n := |rubric| - 1;
      var front, ids := rubric[..n], RubricIds(rubric[..n]);
      WeightTableValues(front);
      assert RubricIds(rubric) == ids + [rubric[n].id];
      assert rubric == front + [rubric[n]];
      NoDupSnoc(ids, rubric[n].id);
      if NoDup(RubricIds(rubric)) {
        forall item | item in front ensures item.id != rubric[n].id {
          var i :| 0 <= i < n && front[i] == item;
          assert ids[i] in ids;
        }
      }
    }
  }

  lemma WeightTableFits(rubric: seq<RubricItem>)
    ensures WeightTable(rubric).Keys == ToSet(RubricIds(rubric))
    ensures NoDup(RubricIds(rubric)) ==>
              forall item :: item in rubric ==> item.id in WeightTable(rubric) && WeightTable(rubric)[item.id] == item.weight
  {
    WeightTableKeys(rubric);
    WeightTableValues(rubric);
  }

  lemma FittingPointsInRange(rubric: seq<RubricItem>, awards: seq<Award>, materials: set<Id>)
    requires ValidRubric(rubric)
    requires forall award :: award in awards ==> AwardFits(WeightTable(rubric), award, materials)
    ensures forall award :: award in awards ==> 0 <= award.awardedPoints <= 100
  {
    WeightTableFits(rubric);
    forall award | award in awards ensures 0 <= award.awardedPoints <= 100 {
      assert award.rubricItemId in ToSet(RubricIds(rubric));
      var i :| 0 <= i < |rubric| && RubricIds(rubric)[i] == award.rubricItemId;
      assert rubric[i] in rubric;
    }
  }

  // ---------- the bijection argument ----------

  function SumOver(w: map<Id, int>, ids: seq<Id>): int
    requires forall id :: id in ids ==> id in w
  {
    if ids == [] then 0 else w[ids[0]] + SumOver(w, ids[1..])
  }

  lemma {:induction false} SumOverRemove(w: map<Id, int>, ids: seq<Id>, k: nat)
    requires k < |ids| && forall id :: id in ids ==> id in w
    ensures forall id :: id in ids[..k] + ids[k + 1..] ==> id in w
    ensures SumOver(w, ids) == w[ids[k]] + SumOver(w, ids[..k] + ids[k + 1..])
  {
    if k == 0 {
      assert ids[..0] + ids[1..] == ids[1..];
    } else {
      SumOverRemove(w, ids[1..], k - 1);
      assert ids[..k] + ids[k + 1..] == [ids[0]] + (ids[1..][..k - 1] + ids[1..][k..]);
    }
  }

  lemma {:induction false} SumOverPermuted(w: map<Id, int>, a: seq<Id>, b: seq<Id>)
    requires multiset(a) == multiset(b)
    requires forall id :: id in a ==> id in w
    requires forall id :: id in b ==> id in w
    ensures SumOver(w, a) == SumOver(w, b)
  {
    if a == [] {
      assert |multiset(b)| == 0;
    } else {
      var k := MatchHead(a, b);
      SumOverRemove(w, b, k);
      SumOverPermuted(w, a[1..], b[..k] + b[k + 1..]);
    }
  }

  lemma {:induction false} WeightsAsSum(w: map<Id, int>, rubric: seq<RubricItem>)
    requires forall item :: item in rubric ==> item.id in w && w[item.id] == item.weight
    ensures SumOver(w, RubricIds(rubric)) == Sum(Weights(rubric))
  {
    if rubric != [] {
      WeightsAsSum(w, rubric[1..]);
      assert RubricIds(rubric)[1..] == RubricIds(rubric[1..]);
      assert Weights(rubric)[1..] == Weights(rubric[1..]);
    }
  }

  lemma {:induction false} PointsAgainstWeights(w: map<Id, int>, awards: seq<Award>)
    requires forall a :: a in awards ==> a.rubricItemId in w && 0 <= a.awardedPoints <= w[a.rubricItemId]
    ensures 0 <= TotalPoints(awards) <= SumOver(w, AwardIds(awards))
    ensures TotalPoints(awards) == SumOver(w, AwardIds(awards)) <==>
            forall a :: a in awards ==> a.awardedPoints == w[a.rubricItemId]
    ensures TotalPoints(awards) == 0 <==> forall a :: a in awards ==> a.awardedPoints == 0
  {
    if awards != [] {
      PointsAgainstWeights(w, awards[1..]);
      assert AwardIds(awards)[1..] == AwardIds(awards[1..]);
      assert Points(awards)[1..] == Points(awards[1..]);
      assert awards == [awards[0]] + awards[1..];
    }
  }

  lemma BijectionOver(w: map<Id, int>, rubric: seq<RubricItem>, awards: seq<Award>)
    requires NoDup(RubricIds(rubric)) && NoDup(AwardIds(awards)) && |awards| == |rubric|
    requires w.Keys == ToSet(RubricIds(rubric))
    requires forall item :: item in rubric ==> item.id in w && w[item.id] == item.weight
    requires forall a :: a in awards ==> a.rubricItemId in w && 0 <= a.awardedPoints <= w[a.rubricItemId]
    ensures multiset(AwardIds(awards)) == multiset(RubricIds(rubric))
    ensures 0 <= TotalPoints(awards) <= Sum(Weights(rubric))
    ensures TotalPoints(awards) == Sum(Weights(rubric)) <==>
            forall a :: a in awards ==> a.awardedPoints == w[a.rubricItemId]
  {
    var aIds, rIds := AwardIds(awards), RubricIds(rubric);
    forall id | id in aIds ensures id in w {
      var i :| 0 <= i < |awards| && aIds[i] == id;
      assert awards[i] in awards;
    }
    assert ToSet(aIds) <= ToSet(rIds);
    NoDupCard(aIds);
    NoDupCard(rIds);
    SubsetCard(ToSet(aIds), ToSet(rIds));
    SameElements(aIds, rIds);
    assert forall id :: id in rIds ==> id in ToSet(rIds);
    SumOverPermuted(w, rIds, aIds);
    WeightsAsSum(w, rubric);
    PointsAgainstWeights(w, awards);
  }

  /** Distinct awards for known items, as many as the rubric has items, hit every item exactly once;
      so their total is between 0 and 100, and 100 exactly when every item is fully awarded. */
  lemma AwardsAreABijection(rubric: seq<RubricItem>, awards: seq<Award>, materials: set<Id>)
    requires ValidRubric(rubric) && |awards| == |rubric| && NoDup(AwardIds(awards))
    requires forall award :: award in awards ==> AwardFits(WeightTable(rubric), award, materials)
    ensures multiset(AwardIds(awards)) == multiset(RubricIds(rubric))
    ensures 0 <= TotalPoints(awards) <= 100
    ensures TotalPoints(awards) == 100 <==>
            forall a :: a in awards ==> a.rubricItemId in WeightTable(rubric) && a.awardedPoints == WeightTable(rubric)[a.rubricItemId]
  {
    WeightTableFits(rubric);
    BijectionOver(WeightTable(rubric), rubric, awards);
  }

  // ---------- aggregation ----------

  datatype SelectedScore = SelectedScore(domain: Domain, outcome: Outcome)

  datatype DomainResult = Assessed(domain: Domain, score: int, questionCount: nat) | Unassessed(domain: Domain)

  datatype CompleteScore = CompleteScore(overallScore: int, domains: seq<DomainResult>)

  /** `Math.round(sum / length)`: the nearest integer, halves upwards. */
  function RoundedAverage(scores: seq<int>): int
    requires scores != []
  {
    (2 * Sum(scores) + |scores|) / (2 * |scores|)
  }

  function ScoresOf(questions: seq<SelectedScore>): (r: seq<int>) {
    Map((q: SelectedScore) => q.outcome.Score(), questions)
  }

  function InDomain(domain: Domain): SelectedScore -> bool {
    (q: SelectedScore) => q.domain == domain
  }

  function DomainScores(questions: seq<SelectedScore>, domain: Domain): (r: seq<int>) {
    ScoresOf(Filter(InDomain(domain), questions))
  }

  function AggregateDomain(questions: seq<SelectedScore>, domain: Domain): DomainResult {
    var scores := DomainScores(questions, domain);
    if |scores| == 0 then Unassessed(domain) else Assessed(domain, RoundedAverage(scores), |scores|)
  }

  function Aggregator(questions: seq<SelectedScore>): Domain -> DomainResult {
    (d: Domain) => AggregateDomain(questions, d)
  }

  function AggregateDomainScores(questions: seq<SelectedScore>): (r: seq<DomainResult>) {
    Map(Aggregator(questions), DOMAINS)
  }

  function AggregateCompleteScore(questions: seq<SelectedScore>, expected: int): Result<CompleteScore, int>
    requires SupportedCount(expected)
  {
    if |questions| != expected then Err(|questions|)
    else Ok(CompleteScore(RoundedAverage(ScoresOf(questions)), AggregateDomainScores(questions)))
  }

  lemma ProductStep(n: int, m: int, x: int)
    requires m == n + 1
    ensures m * x == n * x + x
  {
  }

  lemma {:induction false} SumBounds(scores: seq<int>, low: int, high: int)
    requires forall s :: s in scores ==> low <= s <= high
    ensures |scores| * low <= Sum(scores)
    ensures Sum(scores) <= |scores| * high
  {
    if scores == [] {
      ProductStep(-1, |scores|, low);
      ProductStep(-1, |scores|, high);
    } else {
      var rest := scores[1..];
      assert forall s :: s in rest ==> s in scores;
      SumBounds(rest, low, high);
      assert scores[0] in scores;
      ProductStep(|rest|, |scores|, low);
      ProductStep(|rest|, |scores|, high);
    }
  }

  lemma DivisionBounds(a: int, b: int)
    requires b > 0
    ensures a / b * b <= a < a / b * b + b
  {
  }

  lemma {:induction false} ProductGap(n: int, x: int, y: int)
    requires n > 0 && x > y
    ensures n * x >= n * y + n
    decreases x - y
  {
    if x > y + 1 {
      ProductGap(n, x - 1, y);
    }
  }

  lemma ProductOrder(n: int, x: int, y: int)
    requires n > 0 && n * x <= n * y + n - 1
    ensures x <= y
  {
    if x > y {
      ProductGap(n, x, y);
    }
  }

  /** The rounded average is within one half of the exact mean and never leaves the range it averages. */
  lemma RoundingBound(scores: seq<int>, low: int, high: int)
    requires scores != [] && forall s :: s in scores ==> low <= s <= high
    ensures low <= RoundedAverage(scores) <= high
    ensures 2 * Sum(scores) - |scores| < 2 * (|scores| * RoundedAverage(scores)) <= 2 * Sum(scores) + |scores|
  {
    var n, avg, total := |scores|, RoundedAverage(scores), Sum(scores);
    DivisionBounds(2 * total + n, 2 * n);
    assert avg * (2 * n) == 2 * (n * avg);
    SumBounds(scores, low, high);
    ProductOrder(n, avg, high);
    ProductOrder(n, low, avg);
  }

  function WeightedDomains(domains: seq<DomainResult>): int {
    if domains == [] then 0
    else (if domains[0].Assessed? then domains[0].questionCount * domains[0].score else 0) + WeightedDomains(domains[1..])
  }

  function CountedQuestions(domains: seq<DomainResult>): int {
    if domains == [] then 0
    else (if domains[0].Assessed? then domains[0].questionCount else 0) + CountedQuestions(domains[1..])
  }

  /** The questions whose domain is among `domains`, per domain: their number and their score total. */
  function SpreadCount(questions: seq<SelectedScore>, domains: seq<Domain>): int {
    if domains == [] then 0 else |DomainScores(questions, domains[0])| + SpreadCount(questions, domains[1..])
  }

  function SpreadSum(questions: seq<SelectedScore>, domains: seq<Domain>): int {
    if domains == [] then 0 else Sum(DomainScores(questions, domains[0])) + SpreadSum(questions, domains[1..])
  }

  lemma DomainScoresCons(q: SelectedScore, rest: seq<SelectedScore>, d: Domain)
    ensures DomainScores([q] + rest, d)
            == if q.domain == d then [q.outcome.Score()] + DomainScores(rest, d) else DomainScores(rest, d)
  {
    assert ([q] + rest)[1..] == rest;
    var before, after := Filter(InDomain(d), rest), Filter(InDomain(d), [q] + rest);
    if q.domain == d {
      assert after == [q] + before;
      assert ScoresOf(after) == [q.outcome.Score()] + ScoresOf(before);
    } else {
      assert after == before;
    }
  }

  lemma SumCons(x: int, s: seq<int>)
    ensures Sum([x] + s) == x + Sum(s)
  {
    assert ([x] + s)[1..] == s;
  }

  lemma {:induction false} SpreadStep(q: SelectedScore, rest: seq<SelectedScore>, domains: seq<Domain>)
    requires NoDup(domains)
    ensures SpreadCount([q] + rest, domains) == SpreadCount(rest, domains) + if q.domain in domains then 1 else 0
    ensures SpreadSum([q] + rest, domains) == SpreadSum(rest, domains) + if q.domain in domains then q.outcome.Score() else 0
  {
    if domains != [] {
      NoDupStep(domains);
      SpreadStep(q, rest, domains[1..]);
      DomainScoresCons(q, rest, domains[0]);
      SumCons(q.outcome.Score(), DomainScores(rest, domains[0]));
    }
  }

  lemma {:induction false} SpreadTotals(questions: seq<SelectedScore>, domains: seq<Domain>)
    requires NoDup(domains) && forall d :: d in domains
    ensures SpreadCount(questions, domains) == |questions|
    ensures SpreadSum(questions, domains) == Sum(ScoresOf(questions))
  {
    if questions == [] {
      SpreadNothing(domains);
    } else {
      assert questions == [questions[0]] + questions[1..];
      SpreadStep(questions[0], questions[1..], domains);
      SpreadTotals(questions[1..], domains);
      assert ScoresOf(questions)[1..] == ScoresOf(questions[1..]);
    }
  }

  lemma AllDomains()
    ensures NoDup(DOMAINS) && forall d :: d in DOMAINS
  {
    forall d ensures d in DOMAINS {
      match d {
        case GoLanguage => assert DOMAINS[0] == d;
        case ConcurrencyRuntimePerformance => assert DOMAINS[1] == d;
        case HttpRpcApi => assert DOMAINS[2] == d;
        case DatabaseStorage => assert DOMAINS[3] == d;
        case CacheMessagingDistributed => assert DOMAINS[4] == d;
        case TestingObservabilityEngineering => assert DOMAINS[5] == d;
      }
    }
  }

  lemma {:induction false} SpreadNothing(domains: seq<Domain>)
    ensures SpreadCount([], domains) == 0 && SpreadSum([], domains) == 0
  {
    if domains != [] {
      SpreadNothing(domains[1..]);
    }
  }

  lemma DomainRounding(questions: seq<SelectedScore>, d: Domain, low: int, high: int)
    requires forall q :: q in questions ==> low <= q.outcome.Score() <= high
    ensures var s := DomainScores(questions, d);
            s != [] ==>
              && low <= RoundedAverage(s) <= high
              && 2 * Sum(s) - |s| < 2 * (|s| * RoundedAverage(s)) <= 2 * Sum(s) + |s|
  {
    var members, scores := Filter(InDomain(d), questions), DomainScores(questions, d);
    FilterMembers(InDomain(d), questions);
    forall s | s in scores ensures low <= s <= high {
      var i :| 0 <= i < |scores| && scores[i] == s;
      assert members[i] in members;
    }
    if scores != [] {
      RoundingBound(scores, low, high);
    }
  }

  lemma MapCons<T, U>(f: T -> U, s: seq<T>)
    ensures s != [] ==> Map(f, s) == [f(s[0])] + Map(f, s[1..]) && Map(f, s)[1..] == Map(f, s[1..])
  {
  }

  lemma {:induction false} WeightedWithinHalf(questions: seq<SelectedScore>, domains: seq<Domain>, low: int, high: int)
    requires forall q :: q in questions ==> low <= q.outcome.Score() <= high
    ensures var results := Map(Aggregator(questions), domains);
            && CountedQuestions(results) == SpreadCount(questions, domains)
            && 2 * SpreadSum(questions, domains) - SpreadCount(questions, domains)
               <= 2 * WeightedDomains(results)
               <= 2 * SpreadSum(questions, domains) + SpreadCount(questions, domains)
  {
    if domains != [] {
      WeightedWithinHalf(questions, domains[1..], low, high);
      MapCons(Aggregator(questions), domains);
      DomainRounding(questions, domains[0], low, high);
    }
  }

  /** Every domain and the overall score lie in the range of the question scores, the domain question
      counts add up, and the overall score is within 1 of the question-weighted mean of domain scores. */
  lemma AggregationBounds(questions: seq<SelectedScore>, expected: int, low: int, high: int)
    requires SupportedCount(expected) && |questions| == expected
    requires forall q :: q in questions ==> low <= q.outcome.Score() <= high
    ensures AggregateCompleteScore(questions, expected).Ok?
    ensures var r := AggregateCompleteScore(questions, expected).value;
            && low <= r.overallScore <= high
            && (forall d :: d in r.domains && d.Assessed? ==> low <= d.score <= high)
            && CountedQuestions(r.domains) == expected
            && -expected <= expected * r.overallScore - WeightedDomains(r.domains) <= expected
  {
    var scores := ScoresOf(questions);
    forall s | s in scores ensures low <= s <= high {
      var i :| 0 <= i < |scores| && scores[i] == s;
      assert questions[i] in questions;
    }
    RoundingBound(scores, low, high);
    WeightedWithinHalf(questions, DOMAINS, low, high);
    forall d ensures AggregateDomain(questions, d).Assessed? ==> low <= AggregateDomain(questions, d).score <= high {
      DomainRounding(questions, d, low, high);
    }
    AllDomains();
    SpreadTotals(questions, DOMAINS);
  }
}
