/** Which reports are created: what the decoder refuses, and that a fitting analysis always exists. */
module ReportDecoding {
  import opened Basics
  import opened Sequences
  import opened TextOrder
  import opened InterviewModel
  import opened Coverage
  import opened Scoring
  import opened Engine
  import opened EngineInvariant
  import opened Reports
  import opened ReportBuilder
  import opened ReportTheorems

  // ---------- one question ----------

  predicate PointsNonBlank(awards: seq<Award>) {
    forall a :: a in awards ==> forall point :: point in a.missingOrIncorrectPoints ==> NonBlank(point)
  }

  /** The recorded missing points of the question, if it was evaluated, are not blank. */
  predicate RecordedNonBlank(q: QuestionState) {
    q.evaluation.Some? ==> PointsNonBlank(q.evaluation.value.rubricItems)
  }

  lemma {:induction false} MissingSummaries(awards: seq<Award>, id: Id)
    ensures (forall p :: p in MissingOf(awards, id) ==> NonBlank(p.summary)) <==> PointsNonBlank(awards)
  {
    if awards != [] {
      var n := |awards| - 1;
      var front, last := MissingOf(awards[..n], id), LastMissing(awards[n], id);
      MissingSummaries(awards[..n], id);
      LastSummaries(awards[n], id);
      assert MissingOf(awards, id) == front + last;
      assert forall p :: p in MissingOf(awards, id) <==> p in front || p in last;
      assert forall a :: a in awards <==> a in awards[..n] || a == awards[n];
    }
  }

  function LastMissing(a: Award, id: Id): seq<MissingPoint> {
    Map((summary: string) => MissingPoint(a.rubricItemId, summary, [FromQuestion(id)]), a.missingOrIncorrectPoints)
  }

  lemma LastSummaries(a: Award, id: Id)
    ensures (forall p :: p in LastMissing(a, id) ==> NonBlank(p.summary)) <==> (forall point :: point in a.missingOrIncorrectPoints ==> NonBlank(point))
  {
    var points := a.missingOrIncorrectPoints;
    if forall p :: p in LastMissing(a, id) ==> NonBlank(p.summary) {
      forall point | point in points ensures NonBlank(point) {
        var k :| 0 <= k < |points| && points[k] == point;
        assert LastMissing(a, id)[k].summary == point && LastMissing(a, id)[k] in LastMissing(a, id);
      }
    }
  }

  lemma MatchedDecode(q: QuestionState, s: Question)
    requires Kept(q, s) && q.outcome.Some?
    ensures forall p :: p in MatchedFor(q) ==> 1 <= p.awardedPoints <= 100 && p.evidence != []
  {
    if q.evaluation.Some? {
      var awards := q.evaluation.value.rubricItems;
      var kept := Filter(Awarded(), awards);
      FilterMembers(Awarded(), awards);
      forall p | p in MatchedFor(q) ensures 1 <= p.awardedPoints <= 100 && p.evidence != [] {
        var k :| 0 <= k < |kept| && MatchedOf(awards)[k] == p;
        assert p == MatchedPointOf()(kept[k]) && kept[k] in kept;
        AwardAtMost100(s.rubric, kept[k], ToSet(MaterialIds(q.answerMaterial)));
      }
    }
  }

  lemma AwardAtMost100(rubric: seq<RubricItem>, award: Award, materials: set<Id>)
    requires ValidRubric(rubric) && AwardFits(WeightTable(rubric), award, materials)
    ensures award.awardedPoints <= 100
  {
    WeightTableFits(rubric);
  }

  lemma OutcomeDecodes(q: QuestionState, s: Question)
    requires Kept(q, s) && q.outcome.Some?
    ensures q.outcome.value.Scored? ==> 1 <= q.outcome.value.points <= 100
    ensures 0 <= q.outcome.value.Score() <= 100
  {
    if q.evaluation.Some? {
      AwardsAreABijection(s.rubric, q.evaluation.value.rubricItems, ToSet(MaterialIds(q.answerMaterial)));
    }
  }

  /** The feedback of a question decodes exactly when its recorded points are nonblank and its version is safe. */
  lemma QuestionDecodes(q: QuestionState, s: Question, a: QuestionAnalysis)
    requires Kept(q, s) && q.outcome.Some? && ValidSnapshot(s) && 1 <= q.position <= 15
    ensures FeedbackDecodes(FeedbackFor(q, s, a)) <==> RecordedNonBlank(q) && s.questionVersion <= MAX_SAFE_INTEGER
  {
    var f := FeedbackFor(q, s, a);
    MatchedDecode(q, s);
    OutcomeDecodes(q, s);
    EvidenceListed(q, s, a);
    if q.evaluation.Some? {
      MissingCitesQuestion(q.evaluation.value.rubricItems, s.questionId);
      MissingSummaries(q.evaluation.value.rubricItems, s.questionId);
    }
  }

  // ---------- the whole snapshot ----------

  /** The recorded points of the selected questions are nonblank, and their versions are safe integers. */
  ghost predicate Recordable(i: Interview) {
    && 1 <= i.current <= |i.questions| && i.blueprint.questions != []
    && forall k {:trigger RecordableAt(i, k)} :: 0 <= k < SelectedCount(i) ==> RecordableAt(i, k)
  }

  predicate RecordableAt(i: Interview, k: nat)
    requires i.blueprint.questions != []
  {
    RecordedNonBlank(StateAt(i, k)) && SnapshotAt(i, k).questionVersion <= MAX_SAFE_INTEGER
  }

  lemma QuestionsDecode(i: Interview, s: Snapshot, analyses: seq<QuestionAnalysis>, catalogue: seq<Domain>)
    requires Good(i) && i.status == ReportPending && i.blueprint.questions != [] && Drafted(i, s, analyses, catalogue)
    ensures |s.questions| == SelectedCount(i) <= 15
    ensures (forall f :: f in s.questions ==> FeedbackDecodes(f)) <==> Recordable(i)
    ensures forall f :: f in s.questions ==> 0 <= f.outcome.Score() <= 100
  {
    SelectedAreSelectable(i);
    forall k | 0 <= k < SelectedCount(i)
      ensures (FeedbackDecodes(s.questions[k]) <==> RecordableAt(i, k)) && 0 <= s.questions[k].outcome.Score() <= 100
    {
      assert BuiltAt(i, s.questions, analyses, k);
      assert Selectable(i, StateAt(i, k), SnapshotAt(i, k), k);
      assert ItemFits(i.blueprint.questions, k);
      QuestionDecodes(StateAt(i, k), SnapshotAt(i, k), analyses[k]);
      OutcomeDecodes(StateAt(i, k), SnapshotAt(i, k));
    }
    if forall f :: f in s.questions ==> FeedbackDecodes(f) {
      forall k | 0 <= k < SelectedCount(i) ensures RecordableAt(i, k) {
        assert s.questions[k] in s.questions;
      }
    }
  }

  lemma VersionsDecode(questions: seq<Feedback>)
    requires forall f :: f in questions ==> FeedbackDecodes(f)
    ensures forall v :: v in VersionsFor(questions) ==> VersionDecodes(v.questionVersion)
  {
    forall v | v in VersionsFor(questions) ensures VersionDecodes(v.questionVersion) {
      var k :| 0 <= k < |questions| && VersionsFor(questions)[k] == v;
      assert questions[k] in questions;
    }
  }

  lemma ScoreRange(questions: seq<SelectedScore>, low: int, high: int)
    requires forall q :: q in questions ==> low <= q.outcome.Score() <= high
    ensures forall n :: n in ScoresOf(questions) ==> low <= n <= high
  {
    forall n | n in ScoresOf(questions) ensures low <= n <= high {
      var k :| 0 <= k < |questions| && ScoresOf(questions)[k] == n;
      assert questions[k] in questions;
    }
  }

  lemma ResultsDecode(questions: seq<SelectedScore>, d: Domain)
    requires |questions| <= 15 && forall q :: q in questions ==> 0 <= q.outcome.Score() <= 100
    ensures ResultDecodes(AggregateDomain(questions, d))
  {
    var kept := Filter(InDomain(d), questions);
    FilterMembers(InDomain(d), questions);
    FilterLength(InDomain(d), questions);
    ScoreRange(kept, 0, 100);
    if DomainScores(questions, d) != [] {
      RoundingBound(DomainScores(questions, d), 0, 100);
    }
  }

  lemma {:induction false} FilterLength<T(!new)>(p: T -> bool, s: seq<T>)
    ensures |Filter(p, s)| <= |s|
  {
    if s != [] {
      FilterLength(p, s[1..]);
    }
  }

  lemma ScoresDecode(s: Snapshot, catalogue: seq<Domain>)
    requires 1 <= |s.questions| <= 15 && s.domains == Computed(s, catalogue)
    requires forall f :: f in s.questions ==> 0 <= f.outcome.Score() <= 100
    requires s.kind == Complete ==> s.overallScore == RoundedAverage(ScoresOf(SelectedScores(s.questions)))
    ensures forall r :: r in s.domains ==> ResultDecodes(r)
    ensures s.kind == Complete ==> 0 <= s.overallScore <= 100
  {
    var scores := SelectedScores(s.questions);
    forall q | q in scores ensures 0 <= q.outcome.Score() <= 100 {
      var k :| 0 <= k < |scores| && scores[k] == q;
      assert s.questions[k] in s.questions;
    }
    forall r | r in s.domains ensures ResultDecodes(r) {
      var k :| 0 <= k < |catalogue| && s.domains[k] == r;
      ResultsDecode(scores, catalogue[k]);
    }
    ScoreRange(scores, 0, 100);
    RoundingBound(ScoresOf(scores), 0, 100);
  }

  /** The decoder refuses a drafted report for two reasons only: a blank recorded point and an unsafe version. */
  lemma DraftDecodesIffRecordable(i: Interview, s: Snapshot, analyses: seq<QuestionAnalysis>, catalogue: seq<Domain>)
    requires Good(i) && i.status == ReportPending
    requires i.blueprint.questions != [] && Drafted(i, s, analyses, catalogue)
    ensures Decodes(s) <==> Recordable(i)
  {
    QuestionsDecode(i, s, analyses, catalogue);
    SelectedNonempty(i);
    ScoresDecode(s, catalogue);
    if Recordable(i) {
      VersionsDecode(s.questions);
    }
  }

  /** Report soundness: for every reachable interview awaiting its report, and every analysis that covers
      the questions in order, with fitting evidence and without private text, the report is created exactly
      when no question was selected twice, no recorded point is blank and the versions are safe integers. */
  lemma ReportIsCreated(i: Interview, analysis: ReportAnalysis, leaks: (seq<QuestionInput>, seq<string>) -> bool, catalogue: seq<Domain>)
    requires Good(i) && i.status == ReportPending && Catalogue(catalogue)
    requires i.blueprint.questions != [] && AnalysisFits(i, SelectedCount(i), analysis.perQuestion)
    requires CreateRequest(i, catalogue).Ok? && |analysis.perQuestion| == |CreateRequest(i, catalogue).value.questions|
    requires var request := CreateRequest(i, catalogue).value;
             !leaks(request.questions, analysis.texts + QuestionTexts(request.questions, analysis.perQuestion))
    ensures |i.blueprint.questions| == |i.questions|
    ensures CreatePersistence(i, i.pendingReportKind.value, analysis, leaks, catalogue).Ok? <==> NoDup(SelectedIds(i)) && Recordable(i)
  {
    var kind := i.pendingReportKind.value;
    DraftExists(i, kind, analysis, leaks, catalogue);
    var s := Draft(i, kind, analysis, leaks, catalogue).value;
    DraftIsValidIffIdsDistinct(i, s, analysis.perQuestion, catalogue);
    DraftDecodesIffRecordable(i, s, analysis.perQuestion, catalogue);
  }

  // ---------- a fitting analysis ----------

  /** The material to cite for a question: all of it when the question was evaluated, and else none. */
  function Citable(q: QuestionState): seq<Id> {
    if q.evaluation.Some? then MaterialIds(q.answerMaterial) else []
  }

  lemma CitableFits(q: QuestionState, s: Question)
    requires Kept(q, s) && q.outcome.Some?
    ensures EvidenceFits(q, Citable(q))
  {
    if q.evaluation.Some? {
      assert MaterialIds(q.answerMaterial) != [];
    } else {
      assert NoDup<Id>([]);
    }
  }

  /** Whatever texts are written, a fitting analysis with these texts exists: no reachable interview is stuck
      without a possible report for want of evidence. */
  lemma SomeAnalysisFits(i: Interview, texts: nat -> seq<string>) returns (analyses: seq<QuestionAnalysis>)
    requires Good(i) && i.status == ReportPending
    ensures i.blueprint.questions != [] && AnalysisFits(i, SelectedCount(i), analyses)
    ensures forall k :: 0 <= k < |analyses| ==> analyses[k].texts == texts(k)
  {
    SelectedAreSelectable(i);
    analyses := seq(SelectedCount(i), k requires 0 <= k < SelectedCount(i) =>
                      QuestionAnalysis(SnapshotAt(i, k).questionId, texts(k), Citable(StateAt(i, k))));
    forall k | 0 <= k < |analyses| ensures FitsAt(i, k, analyses[k]) {
      assert Selectable(i, StateAt(i, k), SnapshotAt(i, k), k);
      CitableFits(StateAt(i, k), SnapshotAt(i, k));
    }
  }

  /** Every reachable interview that awaits its report, with distinct selected questions and recordable points,
      gets its report from some analysis with any given texts that show nothing private. */
  lemma SomeReportIsCreated(i: Interview, texts: seq<string>, perQuestion: nat -> seq<string>,
                            leaks: (seq<QuestionInput>, seq<string>) -> bool, catalogue: seq<Domain>) returns (analysis: ReportAnalysis)
    requires Good(i) && i.status == ReportPending && Catalogue(catalogue)
    requires |i.blueprint.questions| == |i.questions| && NoDup(SelectedIds(i)) && Recordable(i)
    ensures analysis.texts == texts && forall k :: 0 <= k < |analysis.perQuestion| ==> analysis.perQuestion[k].texts == perQuestion(k)
    ensures CreateRequest(i, catalogue).Ok? && |analysis.perQuestion| == |CreateRequest(i, catalogue).value.questions|
    ensures var request := CreateRequest(i, catalogue).value;
            CreatePersistence(i, i.pendingReportKind.value, analysis, leaks, catalogue).Ok?
            <==> !leaks(request.questions, texts + QuestionTexts(request.questions, analysis.perQuestion))
  {
    var analyses := SomeAnalysisFits(i, perQuestion);
    analysis := ReportAnalysis(texts, analyses);
    RequestSucceeds(i, catalogue);
    var request := CreateRequest(i, catalogue).value;
    if !leaks(request.questions, texts + QuestionTexts(request.questions, analyses)) {
      ReportIsCreated(i, analysis, leaks, catalogue);
    } else {
      DraftExists(i, i.pendingReportKind.value, analysis, leaks, catalogue);
    }
  }
}
