/** Building a report from an interview and a model's analysis
    (apps/server/src/operation-report-builder.ts). */
module ReportBuilder {
  import opened Basics
  import opened Sequences
  import opened InterviewModel
  import opened Scoring
  import opened Engine
  import opened Reports

  datatype BuilderFault =
    | NoReportAwaited
    | InvalidCoverage
    | MissingSnapshot
    | NoOutcome
    | NoEvaluation
    | CoverageMismatch
    | PrivateContent
    | AnalysisOrder
    | AnalysisEvidence
    | NoRubric
    | InvalidSnapshot

  /** A question as the analysis model sees it. */
  datatype QuestionInput =
    | WithoutEvaluation(question: Question, outcome: Outcome)
    | WithEvaluation(question: Question, answerMaterial: seq<AnswerMaterial>, evaluation: QuestionEvaluation)

  datatype ReportRequest = ReportRequest(kind: ReportKind, questions: seq<QuestionInput>, assessedDomains: seq<Domain>)

  datatype QuestionAnalysis = QuestionAnalysis(questionId: Id, texts: seq<string>, evidenceMaterialIds: seq<Id>)

  datatype ReportAnalysis = ReportAnalysis(texts: seq<string>, perQuestion: seq<QuestionAnalysis>)

  // ---------- the request ----------

  function HasOutcome(): QuestionState -> bool {
    (q: QuestionState) => q.outcome.Some?
  }

  function SelectedStates(i: Interview): seq<QuestionState> {
    Filter(HasOutcome(), i.questions)
  }

  function BlueprintQuestion(i: Interview, position: int): Result<Question, BuilderFault> {
    if 1 <= position <= |i.blueprint.questions| && i.blueprint.questions[position - 1].position == position
    then Ok(i.blueprint.questions[position - 1].question) else Err(MissingSnapshot)
  }

  function InputFor(i: Interview, q: QuestionState): Result<QuestionInput, BuilderFault> {
    var question :- BlueprintQuestion(i, q.position);
    :- Need(q.outcome.Some?, NoOutcome);
    match q.evaluation
    case None =>
      :- Need(q.outcome.value == Unknown || q.outcome.value == Skipped, NoEvaluation);
      Ok(WithoutEvaluation(question, q.outcome.value))
    case Some(e) => Ok(WithEvaluation(question, q.answerMaterial, e))
  }

  function InputsFor(i: Interview, states: seq<QuestionState>): Result<seq<QuestionInput>, BuilderFault> {
    if states == [] then Ok([])
    else
      var front :- InputsFor(i, states[..|states| - 1]);
      var last :- InputFor(i, states[|states| - 1]);
      Ok(front + [last])
  }

  function Asks(inputs: seq<QuestionInput>): Domain -> bool {
    (d: Domain) => exists q :: q in inputs && q.question.domain == d
  }

  function CreateRequest(i: Interview, catalogue: seq<Domain>): Result<ReportRequest, BuilderFault> {
    var guard := Need(i.status == ReportPending && i.pendingReportKind.Some?, NoReportAwaited);
    :- guard;
    var states := SelectedStates(i);
    :- Need(|states| != 0 && (i.pendingReportKind == Some(Complete) ==> |states| == i.questionCount), InvalidCoverage);
    var inputs :- InputsFor(i, states);
    Ok(ReportRequest(i.pendingReportKind.value, inputs, Filter(Asks(inputs), catalogue)))
  }

  // ---------- feedback of one question ----------

  function Awarded(): Award -> bool {
    (a: Award) => a.awardedPoints > 0
  }

  function AnswerEvidence(ids: seq<Id>): (r: seq<Evidence>)
    ensures |r| == |ids|
  {
    Map((id: Id) => FromAnswer(id), ids)
  }

  function MatchedPointOf(): Award -> MatchedPoint {
    (a: Award) => MatchedPoint(a.rubricItemId, a.awardedPoints, AnswerEvidence(a.evidenceMaterialIds))
  }

  function MatchedOf(awards: seq<Award>): seq<MatchedPoint> {
    Map(MatchedPointOf(), Filter(Awarded(), awards))
  }

  function MissingOf(awards: seq<Award>, questionId: Id): seq<MissingPoint> {
    if awards == [] then []
    else
      var last := awards[|awards| - 1];
      MissingOf(awards[..|awards| - 1], questionId)
      + Map((summary: string) => MissingPoint(last.rubricItemId, summary, [FromQuestion(questionId)]), last.missingOrIncorrectPoints)
  }

  function MatchedEvidence(points: seq<MatchedPoint>): seq<Evidence> {
    if points == [] then [] else MatchedEvidence(points[..|points| - 1]) + points[|points| - 1].evidence
  }

  predicate EvidenceCovered(awards: seq<Award>, ids: seq<Id>) {
    forall a :: a in awards ==> forall id :: id in a.evidenceMaterialIds ==> id in ids
  }

  /** The evidence an analysis may give for a question: distinct recorded material, none without an
      evaluation, and otherwise some, including all that the evaluation used. */
  predicate EvidenceFits(q: QuestionState, ids: seq<Id>) {
    && NoDup(ids)
    && (forall id :: id in ids ==> id in MaterialIds(q.answerMaterial))
    && (if q.evaluation.None? then ids == [] else ids != [] && EvidenceCovered(q.evaluation.value.rubricItems, ids))
  }

  function MatchedFor(q: QuestionState): seq<MatchedPoint> {
    if q.evaluation.None? then [] else MatchedOf(q.evaluation.value.rubricItems)
  }

  function MissingFor(q: QuestionState, question: Question): seq<MissingPoint>
    requires q.evaluation.Some? || question.rubric != []
  {
    if q.evaluation.None? then [MissingPoint(question.rubric[0].id, question.displayedWording, [FromQuestion(question.questionId)])]
    else MissingOf(q.evaluation.value.rubricItems, question.questionId)
  }

  function EvidenceFor(q: QuestionState, question: Question, a: QuestionAnalysis): seq<Evidence> {
    Dedupe([FromQuestion(question.questionId)] + AnswerEvidence(a.evidenceMaterialIds) + MatchedEvidence(MatchedFor(q)))
  }

  function FeedbackFor(q: QuestionState, question: Question, a: QuestionAnalysis): Feedback
    requires q.outcome.Some? && (q.evaluation.Some? || question.rubric != [])
  {
    Feedback(question.questionId, question.questionVersion, question.domain, q.position,
             MatchedFor(q), MissingFor(q, question), EvidenceFor(q, question, a), q.outcome.value)
  }

  /** `createReportQuestionFeedback`; the rubric is needed only for a question without evaluation. */
  function BuildFeedback(i: Interview, q: QuestionState, a: QuestionAnalysis): Result<Feedback, BuilderFault> {
    var question :- BlueprintQuestion(i, q.position);
    :- Need(q.outcome.Some? && a.questionId == question.questionId, AnalysisOrder);
    :- Need(EvidenceFits(q, a.evidenceMaterialIds), AnalysisEvidence);
    :- Need(q.evaluation.Some? || question.rubric != [], NoRubric);
    Ok(FeedbackFor(q, question, a))
  }

  /** The source's evidence list is filtered against a growing set of keys. */
  method DedupeReportEvidence(references: seq<Evidence>) returns (kept: seq<Evidence>)
    ensures kept == Dedupe(references)
    ensures NoDup(kept) && forall e :: e in kept <==> e in references
  {
    kept := [];
    var seen: set<Evidence> := {};
    for k := 0 to |references|
      invariant kept == Dedupe(references[..k]) && seen == ToSet(references[..k])
    {
      DedupeStep(references, k);
      assert references[..k + 1] == references[..k] + [references[k]];
      if references[k] !in seen {
        seen := seen + {references[k]};
        kept := kept + [references[k]];
      }
    }
    assert references[..|references|] == references;
    DedupeFacts(references);
  }

  // ---------- the snapshot ----------

  function BuildAll(i: Interview, states: seq<QuestionState>, analyses: seq<QuestionAnalysis>): Result<seq<Feedback>, BuilderFault>
    requires |analyses| == |states|
  {
    if states == [] then Ok([])
    else
      var n := |states| - 1;
      var front :- BuildAll(i, states[..n], analyses[..n]);
      var last :- BuildFeedback(i, states[n], analyses[n]);
      Ok(front + [last])
  }

  function ScoresFor(i: Interview, states: seq<QuestionState>): Result<seq<SelectedScore>, BuilderFault> {
    if states == [] then Ok([])
    else
      var front :- ScoresFor(i, states[..|states| - 1]);
      var last := states[|states| - 1];
      :- Need(last.outcome.Some?, NoOutcome);
      var question :- BlueprintQuestion(i, last.position);
      Ok(front + [SelectedScore(question.domain, last.outcome.value)])
  }

  function MissingTexts(awards: seq<Award>): seq<string> {
    if awards == [] then [] else MissingTexts(awards[..|awards| - 1]) + awards[|awards| - 1].missingOrIncorrectPoints
  }

  function QuestionTexts(inputs: seq<QuestionInput>, analyses: seq<QuestionAnalysis>): seq<string>
    requires |analyses| == |inputs|
  {
    if inputs == [] then []
    else
      var n := |inputs| - 1;
      QuestionTexts(inputs[..n], analyses[..n]) + analyses[n].texts
      + if inputs[n].WithEvaluation? then MissingTexts(inputs[n].evaluation.rubricItems) else []
  }

  function VersionsFor(questions: seq<Feedback>): (r: seq<QuestionVersion>)
    ensures |r| == |questions|
  {
    Map((f: Feedback) => QuestionVersion(f.questionId, f.questionVersion), questions)
  }

  /** The snapshot before its validation. `leaks` stands for the tests for private content. */
  function Draft(i: Interview, kind: ReportKind, analysis: ReportAnalysis, leaks: (seq<QuestionInput>, seq<string>) -> bool, catalogue: seq<Domain>): Result<Snapshot, BuilderFault>
  {
    var request :- CreateRequest(i, catalogue);
    var states := SelectedStates(i);
    :- Need(request.kind == kind && |analysis.perQuestion| == |request.questions| == |states|, CoverageMismatch);
    :- Need(!leaks(request.questions, analysis.texts + QuestionTexts(request.questions, analysis.perQuestion)), PrivateContent);
    DraftFrom(i, kind, states, analysis.perQuestion, catalogue)
  }

  /** The scored questions and the results of the domains. */
  function DraftFrom(i: Interview, kind: ReportKind, states: seq<QuestionState>, analyses: seq<QuestionAnalysis>, catalogue: seq<Domain>): Result<Snapshot, BuilderFault>
    requires |analyses| == |states|
  {
    var questions :- BuildAll(i, states, analyses);
    var scores :- ScoresFor(i, states);
    :- Need(kind == Complete ==> |scores| == i.questionCount && scores != [], InvalidCoverage);
    Ok(Snapshot(kind, if kind == Complete then RoundedAverage(ScoresOf(scores)) else 0, VersionsFor(questions),
                Map(Aggregator(scores), catalogue), questions))
  }

  /** `createReportPersistence`: the snapshot is kept only when it decodes and the validator finds nothing. */
  ghost function CreatePersistence(i: Interview, kind: ReportKind, analysis: ReportAnalysis, leaks: (seq<QuestionInput>, seq<string>) -> bool,
                                   catalogue: seq<Domain>): Result<Snapshot, BuilderFault> {
    var s :- Draft(i, kind, analysis, leaks, catalogue);
    :- Need(Decodes(s) && forall code :: !Violates(s, catalogue, code), InvalidSnapshot);
    Ok(s)
  }
}

/** Reports of reachable interviews always pass the validator, unless a question is asked twice. */
module ReportTheorems {
  import opened Basics
  import opened Sequences
  import opened InterviewModel
  import opened Coverage
  import opened Scoring
  import opened Engine
  import opened EngineInvariant
  import opened Reports
  import opened ReportBuilder
  import SelectionTheorems

  // ---------- the selected questions are a prefix ----------

  /** How many questions have an outcome. */
  function SelectedCount(i: Interview): nat
    requires 1 <= i.current <= |i.questions|
  {
    if i.questions[i.current - 1].outcome.Some? then i.current else i.current - 1
  }

  lemma {:induction false} FilterPrefix<T(!new)>(p: T -> bool, s: seq<T>, n: nat)
    requires n <= |s| && (forall k :: 0 <= k < n ==> p(s[k])) && (forall k :: n <= k < |s| ==> !p(s[k]))
    ensures Filter(p, s) == s[..n]
  {
    if s != [] {
      if n == 0 {
        FilterPrefix(p, s[1..], 0);
      } else {
        FilterPrefix(p, s[1..], n - 1);
        assert s[..n] == [s[0]] + s[1..][..n - 1];
      }
    }
  }

  lemma OutcomeWhenSelected(i: Interview, k: nat)
    requires ListOk(i) && k < |i.questions|
    ensures i.questions[k].outcome.Some? <==> k < SelectedCount(i)
  {
    assert QuestionOk(i, k);
  }

  lemma SelectedIsPrefix(i: Interview)
    requires ListOk(i)
    ensures SelectedStates(i) == i.questions[..SelectedCount(i)] && SelectedCount(i) <= |i.questions|
  {
    forall k | 0 <= k < |i.questions| ensures i.questions[k].outcome.Some? <==> k < SelectedCount(i) {
      OutcomeWhenSelected(i, k);
    }
    FilterPrefix(HasOutcome(), i.questions, SelectedCount(i));
  }

  /** A selected question, its snapshot and what the invariant says about them. */
  ghost predicate Selectable(i: Interview, q: QuestionState, s: Question, k: nat) {
    && q.position == k + 1 && q.outcome.Some? && Kept(q, s) && BlueprintQuestion(i, k + 1) == Ok(s) && ValidRubric(s.rubric)
  }

  function StateAt(i: Interview, k: nat): QuestionState {
    if k < |i.questions| then i.questions[k] else BlankQuestion(0)
  }

  function SnapshotAt(i: Interview, k: nat): Question
    requires i.blueprint.questions != []
  {
    if k < |i.blueprint.questions| then i.blueprint.questions[k].question else i.blueprint.questions[0].question
  }

  lemma SelectedFacts(i: Interview, k: nat)
    requires ListOk(i) && k < SelectedCount(i)
    ensures k < |i.questions| && i.blueprint.questions != [] && Selectable(i, StateAt(i, k), SnapshotAt(i, k), k)
  {
    assert QuestionOk(i, k);
    assert ItemFits(i.blueprint.questions, k);
  }

  /** Every one of the first `n` questions is selectable. */
  ghost predicate AllSelectable(i: Interview, n: nat) {
    && n <= |i.questions| && i.blueprint.questions != []
    && forall k {:trigger Selectable(i, StateAt(i, k), SnapshotAt(i, k), k)} :: 0 <= k < n ==>
         Selectable(i, StateAt(i, k), SnapshotAt(i, k), k)
  }

  lemma SelectedAreSelectable(i: Interview)
    requires ListOk(i)
    ensures AllSelectable(i, SelectedCount(i))
  {
    assert ItemFits(i.blueprint.questions, 0);
    forall k | 0 <= k < SelectedCount(i) ensures Selectable(i, StateAt(i, k), SnapshotAt(i, k), k) {
      SelectedFacts(i, k);
    }
  }

  // ---------- the request succeeds ----------

  lemma {:induction false} InputsSucceed(i: Interview, n: nat)
    requires AllSelectable(i, n)
    ensures InputsFor(i, i.questions[..n]).Ok? && |InputsFor(i, i.questions[..n]).value| == n
  {
    if n > 0 {
      InputsSucceed(i, n - 1);
      assert i.questions[..n][..n - 1] == i.questions[..n - 1];
      assert Selectable(i, StateAt(i, n - 1), SnapshotAt(i, n - 1), n - 1);
    }
  }

  lemma SelectedNonempty(i: Interview)
    requires Good(i) && i.status == ReportPending
    ensures SelectedCount(i) > 0 && (i.pendingReportKind == Some(Complete) ==> SelectedCount(i) == i.questionCount)
  {
    if i.pendingReportKind == Some(Complete) {
      assert QuestionOk(i, i.current - 1);
    } else {
      var kind := i.pendingReportKind.value;
      assert i.pendingReportKind == Some(kind) && kind == Incomplete;
      var k :| 0 <= k < |i.questions| && i.questions[k].outcome.Some?;
      assert QuestionOk(i, k);
    }
  }

  /** For every reachable interview that awaits its report, the request for the analysis succeeds. */
  lemma RequestSucceeds(i: Interview, catalogue: seq<Domain>)
    requires Good(i) && i.status == ReportPending
    ensures CreateRequest(i, catalogue).Ok?
    ensures CreateRequest(i, catalogue).value.kind == i.pendingReportKind.value
    ensures |CreateRequest(i, catalogue).value.questions| == |SelectedStates(i)| == SelectedCount(i)
  {
    SelectedIsPrefix(i);
    SelectedNonempty(i);
    SelectedAreSelectable(i);
    InputsSucceed(i, SelectedCount(i));
  }

  // ---------- feedback of one question ----------

  lemma {:induction false} FilteredIds(awards: seq<Award>)
    requires NoDup(AwardIds(awards))
    ensures NoDup(AwardIds(Filter(Awarded(), awards)))
    ensures forall id :: id in AwardIds(Filter(Awarded(), awards)) ==> id in AwardIds(awards)
  {
    if awards != [] {
      var rest := awards[1..];
      assert AwardIds(awards) == [awards[0].rubricItemId] + AwardIds(rest);
      NoDupStep(AwardIds(awards));
      assert AwardIds(awards)[1..] == AwardIds(rest);
      FilteredIds(rest);
      if awards[0].awardedPoints > 0 {
        var kept := Filter(Awarded(), rest);
        assert Filter(Awarded(), awards) == [awards[0]] + kept;
        assert AwardIds([awards[0]] + kept) == [awards[0].rubricItemId] + AwardIds(kept);
        NoDupStep([awards[0].rubricItemId] + AwardIds(kept));
      } else {
        assert Filter(Awarded(), awards) == Filter(Awarded(), rest);
      }
    }
  }

  lemma {:induction false} FilteredPoints(awards: seq<Award>)
    requires forall a :: a in awards ==> a.awardedPoints >= 0
    ensures TotalPoints(Filter(Awarded(), awards)) == TotalPoints(awards)
  {
    if awards != [] {
      var rest := awards[1..];
      FilteredPoints(rest);
      assert Points(awards) == [awards[0].awardedPoints] + Points(rest);
      SumCons(awards[0].awardedPoints, Points(rest));
      if awards[0].awardedPoints > 0 {
        var kept := Filter(Awarded(), rest);
        assert Filter(Awarded(), awards) == [awards[0]] + kept;
        assert Points([awards[0]] + kept) == [awards[0].awardedPoints] + Points(kept);
        SumCons(awards[0].awardedPoints, Points(kept));
      } else {
        assert Filter(Awarded(), awards) == Filter(Awarded(), rest);
      }
    }
  }

  /** The matched points of an evaluation: distinct items, and all the points. */
  lemma MatchedFacts(awards: seq<Award>)
    requires NoDup(AwardIds(awards)) && forall a :: a in awards ==> a.awardedPoints >= 0
    ensures NoDup(MatchedIds(MatchedOf(awards))) && MatchedTotal(MatchedOf(awards)) == TotalPoints(awards)
  {
    FilteredIds(awards);
    FilteredPoints(awards);
    var kept := Filter(Awarded(), awards);
    assert MatchedIds(MatchedOf(awards)) == AwardIds(kept);
    assert Map((p: MatchedPoint) => p.awardedPoints, MatchedOf(awards)) == Points(kept);
  }

  lemma EvaluationFacts(q: QuestionState, s: Question)
    requires Kept(q, s) && q.outcome.Some?
    ensures q.evaluation.Some? ==>
              var awards := q.evaluation.value.rubricItems;
              NoDup(AwardIds(awards)) && (forall a :: a in awards ==> a.awardedPoints >= 0) && TotalPoints(awards) == q.outcome.value.Score()
    ensures q.evaluation.None? ==> q.outcome.value.Score() == 0
  {
    if q.evaluation.Some? {
      var e := q.evaluation.value;
      AwardsAreABijection(s.rubric, e.rubricItems, ToSet(MaterialIds(q.answerMaterial)));
    }
  }

  /** Awards are distinct and add up to the outcome. */
  lemma FeedbackScores(q: QuestionState, s: Question, a: QuestionAnalysis)
    requires Kept(q, s) && q.outcome.Some? && s.rubric != []
    ensures var f := FeedbackFor(q, s, a);
            NoDup(MatchedIds(f.matched)) && MatchedTotal(f.matched) == f.outcome.Score()
  {
    EvaluationFacts(q, s);
    if q.evaluation.Some? {
      MatchedFacts(q.evaluation.value.rubricItems);
    } else {
      assert MatchedIds([]) == [] && NoDup<Id>([]);
    }
  }

  lemma {:induction false} MatchedEvidenceMembers(points: seq<MatchedPoint>)
    ensures forall p, e :: p in points && e in p.evidence ==> e in MatchedEvidence(points)
    ensures forall e :: e in MatchedEvidence(points) ==> exists p :: p in points && e in p.evidence
  {
    if points != [] {
      var n := |points| - 1;
      MatchedEvidenceMembers(points[..n]);
      assert points == points[..n] + [points[n]];
    }
  }

  lemma {:induction false} MissingCitesQuestion(awards: seq<Award>, id: Id)
    ensures forall p :: p in MissingOf(awards, id) ==> p.evidence == [FromQuestion(id)]
  {
    if awards != [] {
      MissingCitesQuestion(awards[..|awards| - 1], id);
    }
  }

  lemma MatchedAreAnswers(q: QuestionState, e: Evidence)
    requires e in MatchedEvidence(MatchedFor(q))
    ensures e.FromAnswer?
  {
    MatchedEvidenceMembers(MatchedFor(q));
    var p :| p in MatchedFor(q) && e in p.evidence;
    var awards := Filter(Awarded(), q.evaluation.value.rubricItems);
    var k :| 0 <= k < |MatchedFor(q)| && MatchedFor(q)[k] == p;
    assert p == MatchedPointOf()(awards[k]);
  }

  /** Listed evidence is about this question, and holds the question itself and all matched evidence. */
  lemma EvidenceListed(q: QuestionState, s: Question, a: QuestionAnalysis)
    ensures FromQuestion(s.questionId) in EvidenceFor(q, s, a)
    ensures forall p, e :: p in MatchedFor(q) && e in p.evidence ==> e in EvidenceFor(q, s, a) && e.FromAnswer?
    ensures forall e :: e in EvidenceFor(q, s, a) && e.FromQuestion? ==> e.questionId == s.questionId
  {
    var all := [FromQuestion(s.questionId)] + AnswerEvidence(a.evidenceMaterialIds) + MatchedEvidence(MatchedFor(q));
    DedupeFacts(all);
    MatchedEvidenceMembers(MatchedFor(q));
    assert all[0] == FromQuestion(s.questionId);
    forall p, e | p in MatchedFor(q) && e in p.evidence ensures e in EvidenceFor(q, s, a) && e.FromAnswer? {
      assert e in MatchedEvidence(MatchedFor(q));
      MatchedAreAnswers(q, e);
    }
    forall e | e in all && e.FromQuestion? ensures e.questionId == s.questionId {
      if e in MatchedEvidence(MatchedFor(q)) {
        MatchedAreAnswers(q, e);
      }
    }
  }

  lemma FeedbackEvidence(q: QuestionState, s: Question, a: QuestionAnalysis)
    requires q.outcome.Some? && s.rubric != []
    ensures !BadEvidence(FeedbackFor(q, s, a))
  {
    EvidenceListed(q, s, a);
    if q.evaluation.Some? {
      MissingCitesQuestion(q.evaluation.value.rubricItems, s.questionId);
    }
    var f := FeedbackFor(q, s, a);
    forall p | p in f.missing ensures p.evidence == [FromQuestion(s.questionId)] {
    }
  }

  // ---------- the built questions ----------

  /** The analysis of question `k` is about that question, with fitting evidence. */
  predicate FitsAt(i: Interview, k: nat, a: QuestionAnalysis)
    requires i.blueprint.questions != []
  {
    a.questionId == SnapshotAt(i, k).questionId && EvidenceFits(StateAt(i, k), a.evidenceMaterialIds)
  }

  /** The analysis covers the first `n` questions in order. */
  ghost predicate AnalysisFits(i: Interview, n: nat, analyses: seq<QuestionAnalysis>)
    requires i.blueprint.questions != []
  {
    |analyses| == n && forall k {:trigger FitsAt(i, k, analyses[k])} :: 0 <= k < n ==> FitsAt(i, k, analyses[k])
  }

  lemma FitsSnoc(i: Interview, n: nat, analyses: seq<QuestionAnalysis>)
    requires i.blueprint.questions != [] && 0 < n == |analyses|
    ensures AnalysisFits(i, n, analyses) <==> AnalysisFits(i, n - 1, analyses[..n - 1]) && FitsAt(i, n - 1, analyses[n - 1])
  {
    var front := analyses[..n - 1];
    if AnalysisFits(i, n, analyses) {
      forall k | 0 <= k < n - 1 ensures FitsAt(i, k, front[k]) {
        assert FitsAt(i, k, analyses[k]);
      }
    }
    if AnalysisFits(i, n - 1, front) && FitsAt(i, n - 1, analyses[n - 1]) {
      forall k | 0 <= k < n ensures FitsAt(i, k, analyses[k]) {
        if k < n - 1 {
          assert FitsAt(i, k, front[k]);
        }
      }
    }
  }

  /** The feedback of question `k` is the one built from its state and snapshot. */
  ghost predicate BuiltAt(i: Interview, questions: seq<Feedback>, analyses: seq<QuestionAnalysis>, k: nat)
    requires i.blueprint.questions != []
  {
    && k < |questions| && k < |analyses| && StateAt(i, k).outcome.Some? && SnapshotAt(i, k).rubric != []
    && questions[k] == FeedbackFor(StateAt(i, k), SnapshotAt(i, k), analyses[k])
  }

  ghost predicate Built(i: Interview, questions: seq<Feedback>, analyses: seq<QuestionAnalysis>, n: nat)
    requires i.blueprint.questions != []
  {
    |questions| == n && forall k {:trigger BuiltAt(i, questions, analyses, k)} :: 0 <= k < n ==> BuiltAt(i, questions, analyses, k)
  }

  lemma BuildOne(i: Interview, k: nat, a: QuestionAnalysis)
    requires i.blueprint.questions != [] && k < |i.questions| && Selectable(i, StateAt(i, k), SnapshotAt(i, k), k)
    ensures BuildFeedback(i, i.questions[k], a).Ok? <==> FitsAt(i, k, a)
    ensures BuildFeedback(i, i.questions[k], a).Ok? ==>
              BuildFeedback(i, i.questions[k], a).value == FeedbackFor(StateAt(i, k), SnapshotAt(i, k), a)
  {
  }

  /** The feedback of all questions is built exactly when the analysis fits. */
  lemma {:induction false} BuildAllMeans(i: Interview, n: nat, analyses: seq<QuestionAnalysis>)
    requires AllSelectable(i, n) && |analyses| == n
    ensures BuildAll(i, i.questions[..n], analyses).Ok? <==> AnalysisFits(i, n, analyses)
    ensures BuildAll(i, i.questions[..n], analyses).Ok? ==> Built(i, BuildAll(i, i.questions[..n], analyses).value, analyses, n)
  {
    if n > 0 {
      var front := analyses[..n - 1];
      BuildAllMeans(i, n - 1, front);
      FitsSnoc(i, n, analyses);
      BuildAllStep(i, n, analyses);
      assert Selectable(i, StateAt(i, n - 1), SnapshotAt(i, n - 1), n - 1);
      BuildOne(i, n - 1, analyses[n - 1]);
      if BuildAll(i, i.questions[..n], analyses).Ok? {
        BuiltSnoc(i, BuildAll(i, i.questions[..n - 1], front).value, analyses, n);
      }
    }
  }

  lemma BuildAllStep(i: Interview, n: nat, analyses: seq<QuestionAnalysis>)
    requires 0 < n == |analyses| && n <= |i.questions|
    ensures var front, last := BuildAll(i, i.questions[..n - 1], analyses[..n - 1]), BuildFeedback(i, i.questions[n - 1], analyses[n - 1]);
            && (BuildAll(i, i.questions[..n], analyses).Ok? <==> front.Ok? && last.Ok?)
            && (front.Ok? && last.Ok? ==> BuildAll(i, i.questions[..n], analyses).value == front.value + [last.value])
  {
    assert i.questions[..n][..n - 1] == i.questions[..n - 1];
  }

  lemma BuiltSnoc(i: Interview, questions: seq<Feedback>, analyses: seq<QuestionAnalysis>, n: nat)
    requires n > 0 && |analyses| == n && AllSelectable(i, n) && Built(i, questions, analyses[..n - 1], n - 1)
    ensures Selectable(i, StateAt(i, n - 1), SnapshotAt(i, n - 1), n - 1)
    ensures Built(i, questions + [FeedbackFor(StateAt(i, n - 1), SnapshotAt(i, n - 1), analyses[n - 1])], analyses, n)
  {
    assert Selectable(i, StateAt(i, n - 1), SnapshotAt(i, n - 1), n - 1);
    var all := questions + [FeedbackFor(StateAt(i, n - 1), SnapshotAt(i, n - 1), analyses[n - 1])];
    forall k | 0 <= k < n ensures BuiltAt(i, all, analyses, k) {
      if k < n - 1 {
        assert BuiltAt(i, questions, analyses[..n - 1], k);
      }
    }
  }

  lemma SelectedScoresSnoc(questions: seq<Feedback>, k: nat)
    requires k < |questions|
    ensures SelectedScores(questions[..k + 1]) == SelectedScores(questions[..k]) + [SelectedScore(questions[k].domain, questions[k].outcome)]
  {
  }

  lemma ScoresStep(i: Interview, n: nat)
    requires 0 < n <= |i.questions| && i.blueprint.questions != [] && Selectable(i, StateAt(i, n - 1), SnapshotAt(i, n - 1), n - 1)
    ensures var front := ScoresFor(i, i.questions[..n - 1]);
            front.Ok? ==> ScoresFor(i, i.questions[..n])
                          == Ok(front.value + [SelectedScore(SnapshotAt(i, n - 1).domain, StateAt(i, n - 1).outcome.value)])
  {
    assert i.questions[..n][..n - 1] == i.questions[..n - 1];
  }

  lemma {:induction false} ScoresAre(i: Interview, n: nat, questions: seq<Feedback>, analyses: seq<QuestionAnalysis>)
    requires AllSelectable(i, n) && n <= |questions| && forall k {:trigger BuiltAt(i, questions, analyses, k)} :: 0 <= k < n ==> BuiltAt(i, questions, analyses, k)
    ensures ScoresFor(i, i.questions[..n]) == Ok(SelectedScores(questions[..n]))
  {
    if n > 0 {
      ScoresAre(i, n - 1, questions, analyses);
      assert Selectable(i, StateAt(i, n - 1), SnapshotAt(i, n - 1), n - 1);
      assert BuiltAt(i, questions, analyses, n - 1);
      ScoresStep(i, n);
      SelectedScoresSnoc(questions, n - 1);
    }
  }

  // ---------- what the validator looks at ----------

  lemma {:induction false} FindComputed(f: Domain -> DomainResult, catalogue: seq<Domain>, d: Domain)
    requires forall e :: f(e).domain == e
    ensures d in catalogue ==> FindResult(Map(f, catalogue), d) == Some(f(d))
  {
    if catalogue != [] {
      MapCons(f, catalogue);
      if catalogue[0] != d {
        FindComputed(f, catalogue[1..], d);
        assert catalogue == [catalogue[0]] + catalogue[1..];
      }
    }
  }

  /** The domain results are those of the catalogue, each once, and as the validator computes them. */
  lemma DomainsAgree(s: Snapshot, catalogue: seq<Domain>)
    requires Catalogue(catalogue) && s.domains == Computed(s, catalogue)
    ensures ResultDomains(s.domains) == catalogue
    ensures !SomeCountDiffers(s.domains, Computed(s, catalogue)) && !SomeScoreDiffers(s.domains, Computed(s, catalogue))
  {
    var f := Aggregator(SelectedScores(s.questions));
    assert ResultDomains(Map(f, catalogue)) == catalogue;
    forall e | e in Computed(s, catalogue) ensures FindResult(s.domains, e.domain) == Some(e) {
      var k :| 0 <= k < |catalogue| && Computed(s, catalogue)[k] == e;
      assert e == f(catalogue[k]) && e.domain == catalogue[k];
      FindComputed(f, catalogue, catalogue[k]);
    }
  }

  lemma PositionsAreInOrder(positions: seq<int>)
    requires forall k :: 0 <= k < |positions| ==> positions[k] == k + 1
    ensures NoDup(positions) && !MissingPositions(positions, |positions|)
  {
    NoDupByIndex(positions);
    forall p | 1 <= p <= |positions| ensures p in positions {
      assert positions[p - 1] == p;
    }
  }

  lemma {:induction false} OneVersionEach(questions: seq<Feedback>, id: Id)
    requires NoDup(Ids(questions))
    ensures id !in Ids(questions) ==> VersionsOf(VersionsFor(questions), id) == []
    ensures id in Ids(questions) ==> id in VersionTable(questions) && VersionsOf(VersionsFor(questions), id) == [VersionTable(questions)[id]]
  {
    if questions != [] {
      var n := |questions| - 1;
      assert Ids(questions) == Ids(questions[..n]) + [questions[n].questionId];
      NoDupSnoc(Ids(questions[..n]), questions[n].questionId);
      assert VersionsFor(questions)[..n] == VersionsFor(questions[..n]);
      OneVersionEach(questions[..n], id);
    }
  }

  /** One version per question: no version issue, when the ids are distinct. */
  lemma VersionsAgree(questions: seq<Feedback>)
    requires NoDup(Ids(questions))
    ensures !SomeMissingVersion(questions, VersionsFor(questions)) && !SomeDuplicateVersion(questions, VersionsFor(questions))
    ensures !SomeMismatchedVersion(questions, VersionsFor(questions)) && !SomeExtraVersion(questions, VersionsFor(questions))
  {
    assert VersionIds(VersionsFor(questions)) == Ids(questions);
    forall id | id in Ids(questions)
      ensures id in VersionTable(questions) && VersionsOf(VersionsFor(questions), id) == [VersionTable(questions)[id]]
    {
      OneVersionEach(questions, id);
    }
  }

  // ---------- coverage of a complete report ----------

  lemma {:induction false} DomainCountAgrees(questions: seq<Feedback>, snapshots: seq<Question>, d: Domain)
    requires |questions| == |snapshots| && forall k :: 0 <= k < |questions| ==> questions[k].domain == snapshots[k].domain
    ensures |Filter(InDomain(d), SelectedScores(questions))| == CountIn(d, snapshots)
  {
    if questions != [] {
      DomainCountAgrees(questions[1..], snapshots[1..], d);
      assert SelectedScores(questions)[1..] == SelectedScores(questions[1..]);
    }
  }

  lemma {:induction false} AssessedCount(f: Domain -> DomainResult, p: Domain -> bool, domains: seq<Domain>)
    requires forall d :: f(d).Assessed? <==> p(d)
    ensures |Filter(IsAssessed(), Map(f, domains))| == |Filter(p, domains)|
  {
    if domains != [] {
      MapCons(f, domains);
      AssessedCount(f, p, domains[1..]);
    }
  }

  function HasQuestion(snapshots: seq<Question>): Domain -> bool {
    (d: Domain) => CountIn(d, snapshots) > 0
  }

  lemma {:induction false} FilterRest<T(!new)>(p: T -> bool, q: T -> bool, s: seq<T>)
    requires forall x :: p(x) <==> !q(x)
    ensures |Filter(p, s)| + |Filter(q, s)| == |s|
  {
    if s != [] {
      FilterRest(p, q, s[1..]);
    }
  }

  /** A covering selection has questions in five domains, or in all. */
  lemma CoveredDomains(count: int, snapshots: seq<Question>, catalogue: seq<Domain>)
    requires SupportedCount(count) && Covers(count, snapshots) && Catalogue(catalogue)
    ensures |Filter(HasQuestion(snapshots), catalogue)| == if count == 5 then |catalogue| - 1 else |catalogue|
  {
    if count == 5 {
      var d := FiveVerdict(snapshots, catalogue);
      FilterRest(HasQuestion(snapshots), Uncovered(snapshots), catalogue);
      FilterNoDup(Uncovered(snapshots), catalogue);
      FilterMembers(Uncovered(snapshots), catalogue);
      OnlyElement(Filter(Uncovered(snapshots), catalogue), d);
    } else {
      forall d | d in catalogue ensures HasQuestion(snapshots)(d) {
        assert CountIn(d, snapshots) >= Minimum(count, d);
      }
      SelectionTheorems.FilterEvery(HasQuestion(snapshots), catalogue);
    }
  }

  lemma CatalogueSize(catalogue: seq<Domain>)
    requires Catalogue(catalogue)
    ensures |catalogue| == 6
  {
    TheCatalogue();
    assert ToSet(catalogue) == ToSet(DOMAINS);
    SameElements(catalogue, DOMAINS);
  }

  /** The coverage of a complete report follows from the coverage of the blueprint. */
  lemma CoverageAgrees(s: Snapshot, catalogue: seq<Domain>, count: int, snapshots: seq<Question>)
    requires SupportedCount(count) && Covers(count, snapshots) && Catalogue(catalogue)
    requires |s.questions| == |snapshots| && forall k :: 0 <= k < |s.questions| ==> s.questions[k].domain == snapshots[k].domain
    ensures !WrongCoverage(s, catalogue)
  {
    var f := Aggregator(SelectedScores(s.questions));
    forall d ensures f(d).Assessed? <==> HasQuestion(snapshots)(d) {
      DomainCountAgrees(s.questions, snapshots, d);
    }
    AssessedCount(f, HasQuestion(snapshots), catalogue);
    CoveredDomains(count, snapshots, catalogue);
    CatalogueSize(catalogue);
  }

  // ---------- the theorems ----------

  /** The ids of the selected questions. */
  function SelectedIds(i: Interview): seq<Id>
    requires 1 <= i.current <= |i.questions| && |i.blueprint.questions| == |i.questions|
  {
    seq(SelectedCount(i), k requires 0 <= k < SelectedCount(i) => i.blueprint.questions[k].question.questionId)
  }

  /** The parts of a drafted snapshot. */
  ghost predicate Drafted(i: Interview, s: Snapshot, analyses: seq<QuestionAnalysis>, catalogue: seq<Domain>)
    requires i.blueprint.questions != [] && 1 <= i.current <= |i.questions|
  {
    && i.pendingReportKind == Some(s.kind)
    && Built(i, s.questions, analyses, SelectedCount(i))
    && s.questionVersions == VersionsFor(s.questions)
    && s.domains == Computed(s, catalogue)
    && (s.kind == Complete ==> s.questions != [] && s.overallScore == RoundedAverage(ScoresOf(SelectedScores(s.questions))))
  }

  /** A draft exists exactly when the kind is the awaited one, the analysis covers the selected questions in
      order with fitting evidence, and nothing private is in the text. */
  lemma DraftExists(i: Interview, kind: ReportKind, analysis: ReportAnalysis, leaks: (seq<QuestionInput>, seq<string>) -> bool, catalogue: seq<Domain>)
    requires Good(i) && i.status == ReportPending
    ensures i.blueprint.questions != []
    ensures var request := CreateRequest(i, catalogue);
            Draft(i, kind, analysis, leaks, catalogue).Ok? <==>
              && i.pendingReportKind == Some(kind)
              && request.Ok? && |analysis.perQuestion| == |request.value.questions|
              && !leaks(request.value.questions, analysis.texts + QuestionTexts(request.value.questions, analysis.perQuestion))
              && AnalysisFits(i, SelectedCount(i), analysis.perQuestion)
    ensures Draft(i, kind, analysis, leaks, catalogue).Ok? ==>
              Drafted(i, Draft(i, kind, analysis, leaks, catalogue).value, analysis.perQuestion, catalogue)
  {
    RequestSucceeds(i, catalogue);
    SelectedAreSelectable(i);
    if i.pendingReportKind == Some(kind) && |analysis.perQuestion| == SelectedCount(i) {
      DraftedFrom(i, kind, analysis.perQuestion, catalogue);
    }
  }

  lemma DraftedFrom(i: Interview, kind: ReportKind, analyses: seq<QuestionAnalysis>, catalogue: seq<Domain>)
    requires Good(i) && i.status == ReportPending && i.pendingReportKind == Some(kind) && |analyses| == SelectedCount(i)
    requires AllSelectable(i, SelectedCount(i)) && |SelectedStates(i)| == SelectedCount(i)
    ensures DraftFrom(i, kind, SelectedStates(i), analyses, catalogue).Ok? <==> AnalysisFits(i, SelectedCount(i), analyses)
    ensures DraftFrom(i, kind, SelectedStates(i), analyses, catalogue).Ok? ==>
              Drafted(i, DraftFrom(i, kind, SelectedStates(i), analyses, catalogue).value, analyses, catalogue)
  {
    SelectedIsPrefix(i);
    SelectedNonempty(i);
    BuiltAndScored(i, SelectedCount(i), analyses);
  }

  lemma BuiltAndScored(i: Interview, n: nat, analyses: seq<QuestionAnalysis>)
    requires AllSelectable(i, n) && |analyses| == n
    ensures BuildAll(i, i.questions[..n], analyses).Ok? <==> AnalysisFits(i, n, analyses)
    ensures BuildAll(i, i.questions[..n], analyses).Ok? ==>
              var built := BuildAll(i, i.questions[..n], analyses).value;
              Built(i, built, analyses, n) && ScoresFor(i, i.questions[..n]) == Ok(SelectedScores(built))
  {
    BuildAllMeans(i, n, analyses);
    var built := BuildAll(i, i.questions[..n], analyses);
    if built.Ok? {
      assert built.value[..n] == built.value;
      ScoresAre(i, n, built.value, analyses);
    }
  }

  lemma DraftedQuestion(i: Interview, questions: seq<Feedback>, analyses: seq<QuestionAnalysis>, n: nat, k: nat)
    requires AllSelectable(i, n) && Built(i, questions, analyses, n) && k < n <= |i.blueprint.questions|
    ensures !BadEvidence(questions[k]) && NoDup(MatchedIds(questions[k].matched))
    ensures MatchedTotal(questions[k].matched) == questions[k].outcome.Score()
    ensures questions[k].position == k + 1 && questions[k].questionId == i.blueprint.questions[k].question.questionId
    ensures questions[k].domain == i.blueprint.questions[k].question.domain
  {
    assert BuiltAt(i, questions, analyses, k);
    assert Selectable(i, StateAt(i, k), SnapshotAt(i, k), k);
    FeedbackScores(StateAt(i, k), SnapshotAt(i, k), analyses[k]);
    FeedbackEvidence(StateAt(i, k), SnapshotAt(i, k), analyses[k]);
  }

  lemma DraftedQuestions(i: Interview, s: Snapshot, analyses: seq<QuestionAnalysis>, n: nat)
    requires AllSelectable(i, n) && Built(i, s.questions, analyses, n) && n <= |i.blueprint.questions|
    ensures !SomeBadEvidence(s.questions) && !SomeRepeatedAward(s.questions) && !SomeBadScore(s.questions)
    ensures forall k :: 0 <= k < n ==> s.questions[k].domain == i.blueprint.questions[k].question.domain
    ensures forall k :: 0 <= k < n ==> Ids(s.questions)[k] == i.blueprint.questions[k].question.questionId
    ensures NoDup(Positions(s.questions)) && !MissingPositions(Positions(s.questions), |s.questions|)
  {
    forall k | 0 <= k < n
      ensures !BadEvidence(s.questions[k]) && NoDup(MatchedIds(s.questions[k].matched))
              && MatchedTotal(s.questions[k].matched) == s.questions[k].outcome.Score()
              && s.questions[k].position == k + 1 && s.questions[k].questionId == i.blueprint.questions[k].question.questionId
              && s.questions[k].domain == i.blueprint.questions[k].question.domain
    {
      DraftedQuestion(i, s.questions, analyses, n, k);
    }
    PositionsAreInOrder(Positions(s.questions));
  }

  lemma DraftedWhole(i: Interview, s: Snapshot, analyses: seq<QuestionAnalysis>, catalogue: seq<Domain>)
    requires Good(i) && i.status == ReportPending && Catalogue(catalogue)
    requires i.blueprint.questions != [] && Drafted(i, s, analyses, catalogue)
    requires forall k :: 0 <= k < |s.questions| <= |i.blueprint.questions| ==> s.questions[k].domain == i.blueprint.questions[k].question.domain
    ensures !WrongCoverage(s, catalogue) && !WrongOverall(s)
  {
    if s.kind == Complete {
      SelectedNonempty(i);
      CoverageAgrees(s, catalogue, i.questionCount, SnapshotsOf(i.blueprint.questions));
    }
  }

  /** The snapshot built for a reachable interview violates nothing, except that a question selected twice
      (in two versions) makes it invalid. */
  lemma DraftIsValidIffIdsDistinct(i: Interview, s: Snapshot, analyses: seq<QuestionAnalysis>, catalogue: seq<Domain>)
    requires Good(i) && i.status == ReportPending && Catalogue(catalogue)
    requires i.blueprint.questions != [] && Drafted(i, s, analyses, catalogue)
    ensures |i.blueprint.questions| == |i.questions|
    ensures (forall code :: !Violates(s, catalogue, code)) <==> NoDup(SelectedIds(i))
  {
    var n := SelectedCount(i);
    SelectedAreSelectable(i);
    DraftedQuestions(i, s, analyses, n);
    DraftedWhole(i, s, analyses, catalogue);
    DomainsAgree(s, catalogue);
    assert Ids(s.questions) == SelectedIds(i);
    if NoDup(SelectedIds(i)) {
      VersionsAgree(s.questions);
      forall code ensures !Violates(s, catalogue, code) {
        match code { case _ => }
      }
    } else {
      assert Violates(s, catalogue, DuplicateQuestionId);
    }
  }

  /** A blueprint whose questions have distinct ids, as the selector returns, never asks a question twice. */
  lemma DistinctIdsAreSelectedOnce(i: Interview)
    requires Good(i) && i.status == ReportPending && NoDup(Map((item: BlueprintItem) => item.question.questionId, i.blueprint.questions))
    ensures |i.blueprint.questions| == |i.questions| && NoDup(SelectedIds(i))
  {
    var ids := Map((item: BlueprintItem) => item.question.questionId, i.blueprint.questions);
    NoDupPrefix(ids, SelectedCount(i));
    assert SelectedIds(i) == ids[..SelectedCount(i)];
  }
}
