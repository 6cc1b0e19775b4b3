/** What a created report says, read off its fields. */
module ReportContents {
  import opened Basics
  import opened Sequences
  import opened InterviewModel
  import opened Coverage
  import opened Scoring
  import opened Engine
  import opened EngineInvariant
  import opened Reports
  import opened ReportBuilder
  import opened ReportTheorems
  import opened ReportDecoding

  // ---------- one question ----------

  /** The material is cited, in this order. */
  predicate Cites(evidence: seq<Evidence>, ids: seq<Id>) {
    |evidence| == |ids| && forall n :: 0 <= n < |ids| ==> evidence[n] == FromAnswer(ids[n])
  }

  predicate Positive(awards: seq<Award>, k: nat) {
    k < |awards| && awards[k].awardedPoints > 0
  }

  /** The places of the awards with points, in order. */
  ghost predicate PositivePlaces(places: seq<nat>, awards: seq<Award>) {
    && (forall m, n :: 0 <= m < n < |places| ==> places[m] < places[n])
    && (forall n :: 0 <= n < |places| ==> Positive(awards, places[n]))
    && (forall k: nat {:trigger Positive(awards, k)} :: Positive(awards, k) ==> k in places)
  }

  predicate PointsFor(p: MatchedPoint, a: Award) {
    p.rubricItemId == a.rubricItemId && p.awardedPoints == a.awardedPoints && Cites(p.evidence, a.evidenceMaterialIds)
  }

  /** Each award with points is listed, with its points and evidence, in order. */
  ghost predicate ListsAwards(matched: seq<MatchedPoint>, awards: seq<Award>) {
    exists places :: PositivePlaces(places, awards) && ListedAt(matched, awards, places)
  }

  ghost predicate ListedAt(matched: seq<MatchedPoint>, awards: seq<Award>, places: seq<nat>) {
    |matched| == |places| && forall n :: 0 <= n < |places| ==> places[n] < |awards| && PointsFor(matched[n], awards[places[n]])
  }

  /** A recorded point: its award and its place in it. */
  datatype Place = Place(award: nat, point: nat)

  predicate Earlier(a: Place, b: Place) {
    a.award < b.award || (a.award == b.award && a.point < b.point)
  }

  predicate Recorded(awards: seq<Award>, at: Place) {
    at.award < |awards| && at.point < |awards[at.award].missingOrIncorrectPoints|
  }

  predicate MissingFrom(p: MissingPoint, awards: seq<Award>, at: Place, questionId: Id) {
    && Recorded(awards, at) && p.rubricItemId == awards[at.award].rubricItemId
    && p.summary == awards[at.award].missingOrIncorrectPoints[at.point] && p.evidence == [FromQuestion(questionId)]
  }

  /** Each recorded point is listed once under its award's rubric item, in order, citing the question. */
  ghost predicate ListsPoints(missing: seq<MissingPoint>, awards: seq<Award>, questionId: Id) {
    exists places :: PointsAt(missing, awards, questionId, places)
  }

  ghost predicate PointsAt(missing: seq<MissingPoint>, awards: seq<Award>, questionId: Id, places: seq<Place>) {
    && |missing| == |places|
    && (forall m, n :: 0 <= m < n < |places| ==> Earlier(places[m], places[n]))
    && (forall n :: 0 <= n < |places| ==> MissingFrom(missing[n], awards, places[n], questionId))
    && (forall at {:trigger Recorded(awards, at)} :: Recorded(awards, at) ==> at in places)
  }

  /** The feedback is about this question, with its recorded outcome; it cites the question and then the material of
      the analysis; without an evaluation its one missing point is the question itself, under the first rubric item;
      with one it lists the points awarded and the points recorded as missing. */
  ghost predicate Describes(f: Feedback, q: QuestionState, s: Question, a: QuestionAnalysis) {
    && f.questionId == s.questionId && f.questionVersion == s.questionVersion && f.domain == s.domain && f.position == q.position
    && q.outcome == Some(f.outcome)
    && f.evidence != [] && f.evidence[0] == FromQuestion(s.questionId) && Cites(f.evidence[1..], a.evidenceMaterialIds)
    && match q.evaluation
       case None => f.matched == [] && s.rubric != [] && f.missing == [MissingPoint(s.rubric[0].id, s.displayedWording, [FromQuestion(s.questionId)])]
       case Some(e) => ListsAwards(f.matched, e.rubricItems) && ListsPoints(f.missing, e.rubricItems, s.questionId)
  }

  // ---------- the proof for one question ----------

  lemma LastPlace(awards: seq<Award>, front: seq<nat>, places: seq<nat>)
    requires awards != [] && PositivePlaces(front, awards[..|awards| - 1])
    requires places == front + if awards[|awards| - 1].awardedPoints > 0 then [|awards| - 1] else []
    ensures PositivePlaces(places, awards)
  {
    var n := |awards| - 1;
    forall k | 0 <= k < |front| ensures Positive(awards, front[k]) && front[k] < n {
      assert Positive(awards[..n], front[k]);
    }
    forall k: nat | Positive(awards, k) ensures k in places {
      if k < n {
        assert Positive(awards[..n], k);
      } else {
        assert places[|front|] == n;
      }
    }
  }

  lemma LastListed(awards: seq<Award>, front: seq<nat>, places: seq<nat>)
    requires awards != [] && ListedAt(MatchedOf(awards[..|awards| - 1]), awards[..|awards| - 1], front)
    requires places == front + if awards[|awards| - 1].awardedPoints > 0 then [|awards| - 1] else []
    ensures ListedAt(MatchedOf(awards), awards, places)
  {
    var n := |awards| - 1;
    MatchedSnoc(awards);
    forall k | 0 <= k < |places| ensures places[k] < |awards| && PointsFor(MatchedOf(awards)[k], awards[places[k]]) {
      if k < |front| {
        assert PointsFor(MatchedOf(awards[..n])[k], awards[..n][front[k]]);
      }
    }
  }

  lemma {:induction false} AwardsListed(awards: seq<Award>) returns (places: seq<nat>)
    ensures PositivePlaces(places, awards) && ListedAt(MatchedOf(awards), awards, places)
  {
    if awards == [] {
      places := [];
    } else {
      var front := AwardsListed(awards[..|awards| - 1]);
      places := front + if awards[|awards| - 1].awardedPoints > 0 then [|awards| - 1] else [];
      LastPlace(awards, front, places);
      LastListed(awards, front, places);
    }
  }

  lemma MatchedSnoc(awards: seq<Award>)
    requires awards != []
    ensures var n := |awards| - 1;
            MatchedOf(awards) == MatchedOf(awards[..n]) + if awards[n].awardedPoints > 0 then [MatchedPointOf()(awards[n])] else []
  {
    var n := |awards| - 1;
    assert awards == awards[..n] + [awards[n]];
    FilterAppend(Awarded(), awards[..n], [awards[n]]);
    assert Filter(Awarded(), [awards[n]]) == if awards[n].awardedPoints > 0 then [awards[n]] else [];
  }

  function LastPlaces(award: nat, count: nat): (r: seq<Place>)
    ensures |r| == count && forall n :: 0 <= n < count ==> r[n] == Place(award, n)
  {
    seq(count, n requires 0 <= n < count => Place(award, n))
  }

  lemma {:induction false} PointsListed(awards: seq<Award>, questionId: Id) returns (places: seq<Place>)
    ensures PointsAt(MissingOf(awards, questionId), awards, questionId, places)
    ensures forall at :: at in places ==> at.award < |awards|
  {
    if awards == [] {
      places := [];
    } else {
      var n := |awards| - 1;
      var front := PointsListed(awards[..n], questionId);
      var last := LastPlaces(n, |awards[n].missingOrIncorrectPoints|);
      places := front + last;
      var points := MissingOf(awards[..n], questionId);
      assert MissingOf(awards, questionId) == points + LastMissing(awards[n], questionId);
      forall at | Recorded(awards, at) ensures at in places {
        if at.award < n {
          assert Recorded(awards[..n], at);
        } else {
          assert last[at.point] == at;
        }
      }
      forall k | 0 <= k < |places| ensures MissingFrom(MissingOf(awards, questionId)[k], awards, places[k], questionId) {
        if k < |front| {
          assert MissingFrom(points[k], awards[..n], front[k], questionId);
        } else {
          assert places[k] == Place(n, k - |front|);
        }
      }
      forall a, b | 0 <= a < b < |places| ensures Earlier(places[a], places[b]) {
        assert a < |front| ==> places[a] == front[a] && front[a] in front;
      }
    }
  }

  /** What the analysis cites is cited once, after the question; matched evidence adds nothing. */
  lemma EvidenceIs(q: QuestionState, s: Question, a: QuestionAnalysis)
    requires EvidenceFits(q, a.evidenceMaterialIds)
    ensures EvidenceFor(q, s, a) == [FromQuestion(s.questionId)] + AnswerEvidence(a.evidenceMaterialIds)
  {
    var cited := [FromQuestion(s.questionId)] + AnswerEvidence(a.evidenceMaterialIds);
    CitedOnce(s.questionId, a.evidenceMaterialIds);
    DedupeFacts(cited);
    MatchedEvidenceMembers(MatchedFor(q));
    forall e | e in MatchedEvidence(MatchedFor(q)) ensures e in cited {
      MatchedIsCited(q, a, e);
      assert e in AnswerEvidence(a.evidenceMaterialIds);
    }
    DedupeAppend(cited, MatchedEvidence(MatchedFor(q)));
  }

  lemma CitedOnce(questionId: Id, ids: seq<Id>)
    requires NoDup(ids)
    ensures NoDup([FromQuestion(questionId)] + AnswerEvidence(ids))
  {
    var cited := [FromQuestion(questionId)] + AnswerEvidence(ids);
    forall m, n | 0 <= m < n < |cited| ensures cited[m] != cited[n] {
      if m > 0 {
        NoDupIndexed(ids, m - 1, n - 1);
      }
    }
    NoDupFromIndex(cited);
  }

  lemma MatchedIsCited(q: QuestionState, a: QuestionAnalysis, e: Evidence)
    requires EvidenceFits(q, a.evidenceMaterialIds) && e in MatchedEvidence(MatchedFor(q))
    ensures e in AnswerEvidence(a.evidenceMaterialIds)
  {
    MatchedEvidenceMembers(MatchedFor(q));
    var p :| p in MatchedFor(q) && e in p.evidence;
    var awards := q.evaluation.value.rubricItems;
    var kept := Filter(Awarded(), awards);
    FilterMembers(Awarded(), awards);
    var k :| 0 <= k < |MatchedFor(q)| && MatchedFor(q)[k] == p;
    assert p == MatchedPointOf()(kept[k]) && kept[k] in awards;
    var n :| 0 <= n < |p.evidence| && p.evidence[n] == e;
    var id := kept[k].evidenceMaterialIds[n];
    assert id in kept[k].evidenceMaterialIds;
    var m :| 0 <= m < |a.evidenceMaterialIds| && a.evidenceMaterialIds[m] == id;
    assert AnswerEvidence(a.evidenceMaterialIds)[m] == e;
  }

  lemma {:induction false} DedupeAppend<T>(s: seq<T>, more: seq<T>)
    requires NoDup(s) && forall x :: x in more ==> x in s
    ensures Dedupe(s + more) == s
  {
    if more == [] {
      assert s + more == s;
      DedupeFacts(s);
    } else {
      var n := |more| - 1;
      DedupeAppend(s, more[..n]);
      assert (s + more)[..|s + more| - 1] == s + more[..n];
      assert (s + more)[|s + more| - 1] == more[n] && more[n] in s;
    }
  }

  lemma FeedbackDescribes(q: QuestionState, s: Question, a: QuestionAnalysis)
    requires q.outcome.Some? && s.rubric != [] && EvidenceFits(q, a.evidenceMaterialIds)
    ensures Describes(FeedbackFor(q, s, a), q, s, a)
  {
    EvidenceIs(q, s, a);
    var f := FeedbackFor(q, s, a);
    assert f.evidence[1..] == AnswerEvidence(a.evidenceMaterialIds);
    if q.evaluation.Some? {
      var places := AwardsListed(q.evaluation.value.rubricItems);
      var recorded := PointsListed(q.evaluation.value.rubricItems, s.questionId);
    }
  }

  // ---------- the whole report ----------

  /** How many of the questions are of the domain, and their points. */
  function QuestionsIn(questions: seq<Feedback>, d: Domain): nat {
    if questions == [] then 0
    else QuestionsIn(questions[..|questions| - 1], d) + if questions[|questions| - 1].domain == d then 1 else 0
  }

  function PointsIn(questions: seq<Feedback>, d: Domain): int {
    if questions == [] then 0
    else PointsIn(questions[..|questions| - 1], d) + if questions[|questions| - 1].domain == d then questions[|questions| - 1].outcome.Score() else 0
  }

  function AllPointsOf(questions: seq<Feedback>): int {
    if questions == [] then 0 else AllPointsOf(questions[..|questions| - 1]) + questions[|questions| - 1].outcome.Score()
  }

  /** The mean rounded to the nearest whole number, a half upwards. */
  predicate Rounded(score: int, points: int, count: int) {
    2 * points - count < 2 * (count * score) <= 2 * points + count
  }

  predicate ResultFor(r: DomainResult, questions: seq<Feedback>, d: Domain) {
    && r.domain == d && (r.Assessed? <==> QuestionsIn(questions, d) > 0)
    && (r.Assessed? ==> r.questionCount == QuestionsIn(questions, d) && Rounded(r.score, PointsIn(questions, d), r.questionCount))
  }

  /** The report is of the awaited kind, about the questions with outcomes, in order; it lists the version of each
      question and the result of every domain; a complete report has the rounded mean of all questions. */
  ghost predicate Tells(s: Snapshot, i: Interview, analysis: ReportAnalysis, catalogue: seq<Domain>) {
    && i.pendingReportKind == Some(s.kind)
    && |s.questions| <= |i.questions| && |s.questions| <= |i.blueprint.questions| && |analysis.perQuestion| == |s.questions|
    && (forall k :: 0 <= k < |i.questions| ==> (i.questions[k].outcome.Some? <==> k < |s.questions|))
    && (forall k :: 0 <= k < |s.questions| ==>
          Describes(s.questions[k], i.questions[k], i.blueprint.questions[k].question, analysis.perQuestion[k]))
    && |s.questionVersions| == |s.questions|
    && (forall k :: 0 <= k < |s.questions| ==> s.questionVersions[k] == QuestionVersion(s.questions[k].questionId, s.questions[k].questionVersion))
    && |s.domains| == |catalogue| && (forall n :: 0 <= n < |catalogue| ==> ResultFor(s.domains[n], s.questions, catalogue[n]))
    && (s.kind == Complete ==> Rounded(s.overallScore, AllPointsOf(s.questions), |s.questions|))
  }

  lemma {:induction false} DomainTotals(questions: seq<Feedback>, d: Domain)
    ensures |DomainScores(SelectedScores(questions), d)| == QuestionsIn(questions, d)
    ensures Sum(DomainScores(SelectedScores(questions), d)) == PointsIn(questions, d)
  {
    if questions != [] {
      var n := |questions| - 1;
      var front, last := SelectedScores(questions[..n]), SelectedScore(questions[n].domain, questions[n].outcome);
      DomainTotals(questions[..n], d);
      assert SelectedScores(questions) == front + [last];
      FilterAppend(InDomain(d), front, [last]);
      var more := Filter(InDomain(d), [last]);
      assert more == if last.domain == d then [last] else [];
      assert DomainScores(SelectedScores(questions), d) == DomainScores(front, d) + ScoresOf(more);
      SumAppend(DomainScores(front, d), ScoresOf(more));
    }
  }

  lemma {:induction false} AllTotals(questions: seq<Feedback>)
    ensures Sum(ScoresOf(SelectedScores(questions))) == AllPointsOf(questions)
  {
    if questions != [] {
      var n := |questions| - 1;
      AllTotals(questions[..n]);
      assert ScoresOf(SelectedScores(questions)) == ScoresOf(SelectedScores(questions[..n])) + [questions[n].outcome.Score()];
      SumAppend(ScoresOf(SelectedScores(questions[..n])), [questions[n].outcome.Score()]);
    }
  }

  lemma RoundedAverages(scores: seq<int>)
    requires scores != []
    ensures Rounded(RoundedAverage(scores), Sum(scores), |scores|)
  {
    var low, high := Extremes(scores);
    RoundingBound(scores, low, high);
  }

  lemma {:induction false} Extremes(scores: seq<int>) returns (low: int, high: int)
    ensures forall s :: s in scores ==> low <= s <= high
  {
    if scores == [] {
      return 0, 0;
    }
    low, high := Extremes(scores[1..]);
    assert scores == [scores[0]] + scores[1..];
    low, high := if scores[0] < low then scores[0] else low, if scores[0] > high then scores[0] else high;
  }

  lemma ResultIs(questions: seq<Feedback>, d: Domain)
    ensures ResultFor(AggregateDomain(SelectedScores(questions), d), questions, d)
  {
    DomainTotals(questions, d);
    if DomainScores(SelectedScores(questions), d) != [] {
      RoundedAverages(DomainScores(SelectedScores(questions), d));
    }
  }

  /** What a created report tells, for every reachable interview, every analysis and every test for private text. */
  lemma CreatedReportTells(i: Interview, kind: ReportKind, analysis: ReportAnalysis, leaks: (seq<QuestionInput>, seq<string>) -> bool,
                           catalogue: seq<Domain>, s: Snapshot)
    requires Good(i) && i.status == ReportPending && CreatePersistence(i, kind, analysis, leaks, catalogue) == Ok(s)
    ensures s.kind == kind && Tells(s, i, analysis, catalogue)
  {
    DraftExists(i, kind, analysis, leaks, catalogue);
    var n := SelectedCount(i);
    SelectedNonempty(i);
    SelectedAreSelectable(i);
    forall k | 0 <= k < |i.questions| ensures i.questions[k].outcome.Some? <==> k < n {
      OutcomeWhenSelected(i, k);
    }
    forall k | 0 <= k < n ensures Describes(s.questions[k], i.questions[k], i.blueprint.questions[k].question, analysis.perQuestion[k]) {
      CreatedDescribes(i, s, analysis.perQuestion, k);
    }
    forall m | 0 <= m < |catalogue| ensures ResultFor(s.domains[m], s.questions, catalogue[m]) {
      ResultIs(s.questions, catalogue[m]);
    }
    AllTotals(s.questions);
    if s.kind == Complete {
      RoundedAverages(ScoresOf(SelectedScores(s.questions)));
    }
  }

  lemma CreatedDescribes(i: Interview, s: Snapshot, analyses: seq<QuestionAnalysis>, k: nat)
    requires ListOk(i) && i.blueprint.questions != [] && AllSelectable(i, SelectedCount(i)) && AnalysisFits(i, SelectedCount(i), analyses)
    requires Built(i, s.questions, analyses, SelectedCount(i)) && k < SelectedCount(i)
    ensures k < |i.questions| && k < |i.blueprint.questions| && k < |analyses| && k < |s.questions|
    ensures Describes(s.questions[k], i.questions[k], i.blueprint.questions[k].question, analyses[k])
  {
    assert BuiltAt(i, s.questions, analyses, k);
    assert Selectable(i, StateAt(i, k), SnapshotAt(i, k), k);
    assert QuestionOk(i, k) && FitsAt(i, k, analyses[k]);
    FeedbackDescribes(StateAt(i, k), SnapshotAt(i, k), analyses[k]);
  }
}
