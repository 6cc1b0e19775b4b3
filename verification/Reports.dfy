/** The semantic validator of report snapshots (packages/domain/src/reports.ts). */
module Reports {
  import opened Basics
  import opened Sequences
  import opened TextOrder
  import opened InterviewModel
  import opened Scoring

  // ---------- snapshots ----------

  /** A reference to an answer material or to the question itself; the keys of two references are equal
      exactly when the references are. */
  datatype Evidence = FromAnswer(materialId: Id) | FromQuestion(questionId: Id)

  datatype MatchedPoint = MatchedPoint(rubricItemId: Id, awardedPoints: int, evidence: seq<Evidence>)

  datatype MissingPoint = MissingPoint(rubricItemId: Id, summary: string, evidence: seq<Evidence>)

  datatype Feedback = Feedback(
    questionId: Id,
    questionVersion: int,
    domain: Domain,
    position: int,
    matched: seq<MatchedPoint>,
    missing: seq<MissingPoint>,
    evidence: seq<Evidence>,
    outcome: Outcome)

  datatype QuestionVersion = QuestionVersion(questionId: Id, questionVersion: int)

  datatype Snapshot = Snapshot(
    kind: ReportKind,
    overallScore: int,
    questionVersions: seq<QuestionVersion>,
    domains: seq<DomainResult>,
    questions: seq<Feedback>)

  datatype Code =
    | MissingDomain
    | DuplicateDomain
    | DuplicatePosition
    | NonContiguousPosition
    | DuplicateQuestionId
    | DuplicateRubricAward
    | InvalidEvidenceReference
    | InconsistentQuestionScore
    | InconsistentDomainCount
    | InconsistentDomainScore
    | InconsistentOverallScore
    | MissingVersion
    | DuplicateVersion
    | MismatchedVersion
    | ExtraVersion

  // ---------- what the decoder accepts ----------

  predicate VersionDecodes(version: int) {
    1 <= version <= MAX_SAFE_INTEGER
  }

  predicate FeedbackDecodes(f: Feedback) {
    && VersionDecodes(f.questionVersion) && 1 <= f.position <= MAX_SAFE_INTEGER
    && (forall p :: p in f.matched ==> 1 <= p.awardedPoints <= 100 && p.evidence != [])
    && (forall p :: p in f.missing ==> NonBlank(p.summary) && p.evidence != [])
    && f.evidence != []
    && (f.outcome.Scored? ==> 1 <= f.outcome.points <= 100)
  }

  predicate ResultDecodes(r: DomainResult) {
    r.Assessed? ==> 0 <= r.score <= 100 && 1 <= r.questionCount <= 15
  }

  /** `decodeSnapshot` does not throw. */
  predicate Decodes(s: Snapshot) {
    && (if s.kind == Complete then SupportedCount(|s.questions|) && 0 <= s.overallScore <= 100 else 1 <= |s.questions| <= 15)
    && (forall f :: f in s.questions ==> FeedbackDecodes(f))
    && (forall v :: v in s.questionVersions ==> VersionDecodes(v.questionVersion))
    && (forall r :: r in s.domains ==> ResultDecodes(r))
  }

  // ---------- first occurrences, and counting in a map ----------

  /** The elements in the order of their first occurrence: the keys of a `Map` filled from the list. */
  function Dedupe<T(==)>(s: seq<T>): seq<T> {
    if s == [] then []
    else
      var front := Dedupe(s[..|s| - 1]);
      if s[|s| - 1] in s[..|s| - 1] then front else front + [s[|s| - 1]]
  }

  lemma {:induction false} DedupeFacts<T>(s: seq<T>)
    ensures NoDup(Dedupe(s)) && forall x :: x in Dedupe(s) <==> x in s
    ensures NoDup(s) ==> Dedupe(s) == s
  {
    if s != [] {
      var n := |s| - 1;
      DedupeFacts(s[..n]);
      assert s == s[..n] + [s[n]];
      NoDupSnoc(s[..n], s[n]);
      NoDupSnoc(Dedupe(s[..n]), s[n]);
    }
  }

  lemma DedupeStep<T>(s: seq<T>, k: nat)
    requires k < |s|
    ensures Dedupe(s[..k + 1]) == Dedupe(s[..k]) + if s[k] in s[..k] then [] else [s[k]]
  {
    assert s[..k + 1][..k] == s[..k];
  }

  /** How often each key occurs. */
  method CountAll<T(==,!new)>(keys: seq<T>) returns (counts: map<T, nat>)
    ensures counts.Keys == ToSet(keys)
    ensures forall k :: k in counts ==> counts[k] == multiset(keys)[k]
  {
    counts := map[];
    for k := 0 to |keys|
      invariant counts.Keys == ToSet(keys[..k])
      invariant forall x :: x in counts ==> counts[x] == multiset(keys[..k])[x]
    {
      var key := keys[k];
      assert keys[..k + 1] == keys[..k] + [key];
      counts := counts[key := 1 + if key in counts then counts[key] else 0];
    }
    assert keys[..|keys|] == keys;
  }

  lemma RepeatedKey<T>(keys: seq<T>)
    ensures NoDup(keys) <==> forall x :: x in keys ==> multiset(keys)[x] <= 1
  {
    assert forall x :: x in keys <==> x in multiset(keys);
  }

  // ---------- what each code means ----------

  function MatchedIds(points: seq<MatchedPoint>): seq<Id> {
    Map((p: MatchedPoint) => p.rubricItemId, points)
  }

  function MatchedTotal(points: seq<MatchedPoint>): int {
    Sum(Map((p: MatchedPoint) => p.awardedPoints, points))
  }

  predicate BadReference(f: Feedback, e: Evidence) {
    (e.FromQuestion? && e.questionId != f.questionId) || e !in f.evidence
  }

  predicate BadReferences(f: Feedback, references: seq<Evidence>) {
    exists e :: e in references && BadReference(f, e)
  }

  /** Some evidence of the feedback is about another question or not listed with the question. */
  predicate BadEvidence(f: Feedback) {
    || (exists p :: p in f.matched && BadReferences(f, p.evidence))
    || (exists p :: p in f.missing && BadReferences(f, p.evidence))
    || BadReferences(f, f.evidence)
  }

  function FindResult(results: seq<DomainResult>, d: Domain): Option<DomainResult> {
    if results == [] then None else if results[0].domain == d then Some(results[0]) else FindResult(results[1..], d)
  }

  predicate CountDiffers(actual: Option<DomainResult>, expected: DomainResult) {
    match actual
    case None => true
    case Some(a) => a.Assessed? != expected.Assessed? || (a.Assessed? && a.questionCount != expected.questionCount)
  }

  predicate ScoreDiffers(actual: Option<DomainResult>, expected: DomainResult) {
    actual.Some? && actual.value.Assessed? && expected.Assessed? && actual.value.score != expected.score
  }

  function ResultDomains(results: seq<DomainResult>): seq<Domain> {
    Map((r: DomainResult) => r.domain, results)
  }

  function Positions(questions: seq<Feedback>): (r: seq<int>)
    ensures |r| == |questions|
  {
    Map((f: Feedback) => f.position, questions)
  }

  function Ids(questions: seq<Feedback>): (r: seq<Id>)
    ensures |r| == |questions|
  {
    Map((f: Feedback) => f.questionId, questions)
  }

  function VersionIds(versions: seq<QuestionVersion>): (r: seq<Id>)
    ensures |r| == |versions|
  {
    Map((v: QuestionVersion) => v.questionId, versions)
  }

  function SelectedScores(questions: seq<Feedback>): (r: seq<SelectedScore>)
    ensures |r| == |questions|
  {
    Map((f: Feedback) => SelectedScore(f.domain, f.outcome), questions)
  }

  /** The version stored for each question id; a later question with the same id replaces an earlier one. */
  function VersionTable(questions: seq<Feedback>): map<Id, int> {
    if questions == [] then map[]
    else
      var last := questions[|questions| - 1];
      VersionTable(questions[..|questions| - 1])[last.questionId := last.questionVersion]
  }

  /** The versions listed for an id, in order. */
  function VersionsOf(versions: seq<QuestionVersion>, id: Id): seq<int> {
    if versions == [] then []
    else
      var last := versions[|versions| - 1];
      VersionsOf(versions[..|versions| - 1], id) + if last.questionId == id then [last.questionVersion] else []
  }

  function IsAssessed(): DomainResult -> bool {
    (r: DomainResult) => r.Assessed?
  }

  /** A complete report of a supported size, which is checked as a whole. */
  predicate CheckedWhole(s: Snapshot) {
    s.kind == Complete && SupportedCount(|s.questions|)
  }

  function Computed(s: Snapshot, catalogue: seq<Domain>): seq<DomainResult> {
    Map(Aggregator(SelectedScores(s.questions)), catalogue)
  }

  predicate WrongCoverage(s: Snapshot, catalogue: seq<Domain>) {
    CheckedWhole(s) && |Filter(IsAssessed(), Computed(s, catalogue))| != if |s.questions| == 5 then 5 else 6
  }

  predicate WrongOverall(s: Snapshot) {
    CheckedWhole(s) && s.overallScore != RoundedAverage(ScoresOf(SelectedScores(s.questions)))
  }

  predicate SomeCountDiffers(supplied: seq<DomainResult>, computed: seq<DomainResult>) {
    exists e :: e in computed && CountDiffers(FindResult(supplied, e.domain), e)
  }

  predicate SomeScoreDiffers(supplied: seq<DomainResult>, computed: seq<DomainResult>) {
    exists e :: e in computed && ScoreDiffers(FindResult(supplied, e.domain), e)
  }

  predicate MissingPositions(positions: seq<int>, n: nat) {
    exists p :: 1 <= p <= n && p !in positions
  }

  predicate SomeMissingVersion(questions: seq<Feedback>, versions: seq<QuestionVersion>) {
    exists id :: id in Ids(questions) && |VersionsOf(versions, id)| == 0
  }

  predicate SomeDuplicateVersion(questions: seq<Feedback>, versions: seq<QuestionVersion>) {
    exists id :: id in Ids(questions) && |VersionsOf(versions, id)| > 1
  }

  predicate SomeMismatchedVersion(questions: seq<Feedback>, versions: seq<QuestionVersion>) {
    exists id :: id in Ids(questions) && id in VersionTable(questions) && |VersionsOf(versions, id)| == 1
                   && VersionsOf(versions, id)[0] != VersionTable(questions)[id]
  }

  predicate SomeExtraVersion(questions: seq<Feedback>, versions: seq<QuestionVersion>) {
    exists id :: id in VersionIds(versions) && id !in Ids(questions)
  }

  predicate SomeRepeatedAward(questions: seq<Feedback>) {
    exists f :: f in questions && !NoDup(MatchedIds(f.matched))
  }

  predicate SomeBadEvidence(questions: seq<Feedback>) {
    exists f :: f in questions && BadEvidence(f)
  }

  predicate SomeBadScore(questions: seq<Feedback>) {
    exists f :: f in questions && MatchedTotal(f.matched) != f.outcome.Score()
  }

  predicate LacksDomain(names: seq<Domain>, catalogue: seq<Domain>) {
    exists d :: d in catalogue && d !in names
  }

  /** What each code says about a snapshot. */
  ghost predicate Violates(s: Snapshot, catalogue: seq<Domain>, code: Code) {
    match code
    case MissingDomain => LacksDomain(ResultDomains(s.domains), catalogue)
    case DuplicateDomain => !NoDup(ResultDomains(s.domains))
    case DuplicatePosition => !NoDup(Positions(s.questions))
    case NonContiguousPosition => MissingPositions(Positions(s.questions), |s.questions|)
    case DuplicateQuestionId => !NoDup(Ids(s.questions))
    case DuplicateRubricAward => SomeRepeatedAward(s.questions)
    case InvalidEvidenceReference => SomeBadEvidence(s.questions)
    case InconsistentQuestionScore => SomeBadScore(s.questions)
    case InconsistentDomainCount => SomeCountDiffers(s.domains, Computed(s, catalogue)) || WrongCoverage(s, catalogue)
    case InconsistentDomainScore => SomeScoreDiffers(s.domains, Computed(s, catalogue))
    case InconsistentOverallScore => WrongOverall(s)
    case MissingVersion => SomeMissingVersion(s.questions, s.questionVersions)
    case DuplicateVersion => SomeDuplicateVersion(s.questions, s.questionVersions)
    case MismatchedVersion => SomeMismatchedVersion(s.questions, s.questionVersions)
    case ExtraVersion => SomeExtraVersion(s.questions, s.questionVersions)
  }
}

/** The loops of the validator, proved against the meaning of the codes. */
module ReportValidator {
  import opened Basics
  import opened Sequences
  import opened InterviewModel
  import opened Coverage
  import opened Scoring
  import opened Issues
  import opened Reports

  // ---------- feedback of one question ----------

  /** The references of a list that are about another question or not listed with the question. */
  method ValidateEvidence(f: Feedback, references: seq<Evidence>, index: nat) returns (issues: seq<Issue<Code>>)
    ensures Codes(issues) == If(BadReferences(f, references), InvalidEvidenceReference)
  {
    NoCodes<Code>();
    issues := [];
    for k := 0 to |references|
      invariant Codes(issues) == If(BadReferences(f, references[..k]), InvalidEvidenceReference)
    {
      ReferencesSnoc(f, references, k);
      issues := PushIf(BadReference(f, references[k]), issues, Issue(Some(index), Some(k), InvalidEvidenceReference));
    }
    assert references[..|references|] == references;
  }

  lemma ReferencesSnoc(f: Feedback, references: seq<Evidence>, k: nat)
    requires k < |references|
    ensures If(BadReferences(f, references[..k + 1]), InvalidEvidenceReference)
            == If(BadReferences(f, references[..k]), InvalidEvidenceReference) + If(BadReference(f, references[k]), InvalidEvidenceReference)
  {
    assert references[..k + 1] == references[..k] + [references[k]];
  }

  /** What the loop over the matched points has found so far. */
  function MatchedCodes(f: Feedback, points: seq<MatchedPoint>): set<Code> {
    If(!NoDup(MatchedIds(points)), DuplicateRubricAward)
    + If(exists p :: p in points && BadReferences(f, p.evidence), InvalidEvidenceReference)
  }

  lemma MatchedSnoc(f: Feedback, points: seq<MatchedPoint>, k: nat)
    requires k < |points|
    ensures MatchedCodes(f, points[..k + 1])
            == MatchedCodes(f, points[..k]) + If(points[k].rubricItemId in MatchedIds(points[..k]), DuplicateRubricAward)
               + If(BadReferences(f, points[k].evidence), InvalidEvidenceReference)
    ensures MatchedTotal(points[..k + 1]) == MatchedTotal(points[..k]) + points[k].awardedPoints
    ensures ToSet(MatchedIds(points[..k + 1])) == ToSet(MatchedIds(points[..k])) + {points[k].rubricItemId}
  {
    assert points[..k + 1] == points[..k] + [points[k]];
    assert MatchedIds(points[..k + 1]) == MatchedIds(points[..k]) + [points[k].rubricItemId];
    NoDupSnoc(MatchedIds(points[..k]), points[k].rubricItemId);
    var value := (p: MatchedPoint) => p.awardedPoints;
    assert Map(value, points[..k + 1]) == Map(value, points[..k]) + [points[k].awardedPoints];
    SumAppend(Map(value, points[..k]), [points[k].awardedPoints]);
    assert MatchedTotal(points[..k + 1]) == Sum(Map(value, points[..k + 1]));
    assert MatchedTotal(points[..k]) == Sum(Map(value, points[..k]));
  }

  method ValidateMatched(f: Feedback, index: nat) returns (issues: seq<Issue<Code>>, score: int)
    ensures Codes(issues) == MatchedCodes(f, f.matched) && score == MatchedTotal(f.matched)
  {
    NoCodes<Code>();
    issues, score := [], 0;
    var awarded: set<Id> := {};
    for k := 0 to |f.matched|
      invariant Codes(issues) == MatchedCodes(f, f.matched[..k])
      invariant score == MatchedTotal(f.matched[..k]) && awarded == ToSet(MatchedIds(f.matched[..k]))
    {
      var point := f.matched[k];
      MatchedSnoc(f, f.matched, k);
      issues := PushIf(point.rubricItemId in awarded, issues, Issue(Some(index), Some(k), DuplicateRubricAward));
      awarded := awarded + {point.rubricItemId};
      score := score + point.awardedPoints;
      var evidence := ValidateEvidence(f, point.evidence, index);
      issues := Join(issues, evidence);
    }
    assert f.matched[..|f.matched|] == f.matched;
  }

  method ValidateMissing(f: Feedback, index: nat) returns (issues: seq<Issue<Code>>)
    ensures Codes(issues) == If(exists p :: p in f.missing && BadReferences(f, p.evidence), InvalidEvidenceReference)
  {
    NoCodes<Code>();
    issues := [];
    for k := 0 to |f.missing|
      invariant Codes(issues) == If(exists p :: p in f.missing[..k] && BadReferences(f, p.evidence), InvalidEvidenceReference)
    {
      MissingSnoc(f, k);
      var evidence := ValidateEvidence(f, f.missing[k].evidence, index);
      issues := Join(issues, evidence);
    }
    assert f.missing[..|f.missing|] == f.missing;
  }

  lemma MissingSnoc(f: Feedback, k: nat)
    requires k < |f.missing|
    ensures If(exists p :: p in f.missing[..k + 1] && BadReferences(f, p.evidence), InvalidEvidenceReference)
            == If(exists p :: p in f.missing[..k] && BadReferences(f, p.evidence), InvalidEvidenceReference)
               + If(BadReferences(f, f.missing[k].evidence), InvalidEvidenceReference)
  {
    assert f.missing[..k + 1] == f.missing[..k] + [f.missing[k]];
  }

  function FeedbackCodes(f: Feedback): set<Code> {
    If(!NoDup(MatchedIds(f.matched)), DuplicateRubricAward) + If(BadEvidence(f), InvalidEvidenceReference)
    + If(MatchedTotal(f.matched) != f.outcome.Score(), InconsistentQuestionScore)
  }

  /** The issues of one question's feedback. A scored question must match its points, any other zero. */
  method ValidateQuestionFeedback(f: Feedback, index: nat) returns (issues: seq<Issue<Code>>)
    ensures Codes(issues) == FeedbackCodes(f)
  {
    var score;
    issues, score := ValidateMatched(f, index);
    var missing := ValidateMissing(f, index);
    issues := Join(issues, missing);
    var own := ValidateEvidence(f, f.evidence, index);
    issues := Join(issues, own);
    EvidenceCodes(f);
    issues := PushIf(if f.outcome.Scored? then score != f.outcome.points else score != 0, issues, Issue(Some(index), None, InconsistentQuestionScore));
  }

  lemma EvidenceCodes(f: Feedback)
    ensures MatchedCodes(f, f.matched) + If(exists p :: p in f.missing && BadReferences(f, p.evidence), InvalidEvidenceReference)
            + If(BadReferences(f, f.evidence), InvalidEvidenceReference)
            == If(!NoDup(MatchedIds(f.matched)), DuplicateRubricAward) + If(BadEvidence(f), InvalidEvidenceReference)
  {
  }

  // ---------- all questions ----------

  function AllFeedbackCodes(questions: seq<Feedback>): set<Code> {
    If(SomeRepeatedAward(questions), DuplicateRubricAward) + If(SomeBadEvidence(questions), InvalidEvidenceReference)
    + If(SomeBadScore(questions), InconsistentQuestionScore)
  }

  lemma FeedbackSnoc(questions: seq<Feedback>, k: nat)
    requires k < |questions|
    ensures SomeRepeatedAward(questions[..k + 1]) <==> SomeRepeatedAward(questions[..k]) || !NoDup(MatchedIds(questions[k].matched))
    ensures SomeBadEvidence(questions[..k + 1]) <==> SomeBadEvidence(questions[..k]) || BadEvidence(questions[k])
    ensures SomeBadScore(questions[..k + 1])
            <==> SomeBadScore(questions[..k]) || MatchedTotal(questions[k].matched) != questions[k].outcome.Score()
  {
    assert questions[..k + 1] == questions[..k] + [questions[k]];
  }

  lemma JoinThree(a: bool, b: bool, c: bool, a': bool, b': bool, c': bool, x: Code, y: Code, z: Code)
    ensures If(a || a', x) + If(b || b', y) + If(c || c', z) == If(a, x) + If(b, y) + If(c, z) + (If(a', x) + If(b', y) + If(c', z))
  {
  }

  lemma AllFeedbackSnoc(questions: seq<Feedback>, k: nat)
    requires k < |questions|
    ensures AllFeedbackCodes(questions[..k + 1]) == AllFeedbackCodes(questions[..k]) + FeedbackCodes(questions[k])
  {
    var f := questions[k];
    FeedbackSnoc(questions, k);
    JoinThree(SomeRepeatedAward(questions[..k]), SomeBadEvidence(questions[..k]), SomeBadScore(questions[..k]),
              !NoDup(MatchedIds(f.matched)), BadEvidence(f), MatchedTotal(f.matched) != f.outcome.Score(),
              DuplicateRubricAward, InvalidEvidenceReference, InconsistentQuestionScore);
  }

  method ValidateAllFeedback(questions: seq<Feedback>) returns (issues: seq<Issue<Code>>)
    ensures Codes(issues) == AllFeedbackCodes(questions)
  {
    NoCodes<Code>();
    issues := [];
    for k := 0 to |questions|
      invariant Codes(issues) == AllFeedbackCodes(questions[..k])
    {
      AllFeedbackSnoc(questions, k);
      var found := ValidateQuestionFeedback(questions[k], k);
      issues := Join(issues, found);
    }
    assert questions[..|questions|] == questions;
  }

  /** One issue per repeated key, in the order of first occurrence. */
  method ReportRepeated<T(==,!new)>(keys: seq<T>, code: Code) returns (issues: seq<Issue<Code>>)
    ensures Codes(issues) == If(!NoDup(keys), code)
  {
    var counts := CountAll(keys);
    var distinct := Dedupe(keys);
    DedupeFacts(keys);
    RepeatedKey(keys);
    NoCodes<Code>();
    issues := [];
    for k := 0 to |distinct|
      invariant Codes(issues) == If(exists i :: 0 <= i < k && multiset(keys)[distinct[i]] > 1, code)
    {
      assert distinct[k] in distinct && distinct[k] in ToSet(keys);
      RepeatedSnoc(keys, distinct, k, code);
      issues := PushIf(counts[distinct[k]] > 1, issues, Issue(None, None, code));
    }
    if !NoDup(keys) {
      var x :| x in keys && multiset(keys)[x] > 1;
      assert x in distinct;
    }
  }

  lemma RepeatedSnoc<T>(keys: seq<T>, distinct: seq<T>, k: nat, code: Code)
    requires k < |distinct|
    ensures If(exists i :: 0 <= i < k + 1 && multiset(keys)[distinct[i]] > 1, code)
            == If(exists i :: 0 <= i < k && multiset(keys)[distinct[i]] > 1, code) + If(multiset(keys)[distinct[k]] > 1, code)
  {
  }

  // ---------- domains ----------

  /** Missing and repeated domains, in catalogue order. */
  method ValidateDomainList(results: seq<DomainResult>, catalogue: seq<Domain>) returns (issues: seq<Issue<Code>>)
    requires Catalogue(catalogue)
    ensures Codes(issues) == DomainListCodes(ResultDomains(results), catalogue)
  {
    var names := ResultDomains(results);
    var counts := CountAll(names);
    NoCodes<Code>();
    issues := [];
    for k := 0 to |catalogue|
      invariant Codes(issues) == ListedCodes(names, catalogue, k)
    {
      var count := if catalogue[k] in counts then counts[catalogue[k]] else 0;
      assert catalogue[k] in counts <==> catalogue[k] in ToSet(names);
      ListedSnoc(names, catalogue, k);
      issues := PushIf(count == 0, issues, Issue(None, Some(k), MissingDomain));
      issues := PushIf(count > 1, issues, Issue(None, Some(k), DuplicateDomain));
    }
    ListedAll(names, catalogue);
  }

  function ListedCodes(names: seq<Domain>, catalogue: seq<Domain>, k: nat): set<Code>
    requires k <= |catalogue|
  {
    If(exists i :: 0 <= i < k && multiset(names)[catalogue[i]] == 0, MissingDomain)
    + If(exists i :: 0 <= i < k && multiset(names)[catalogue[i]] > 1, DuplicateDomain)
  }

  lemma ListedSnoc(names: seq<Domain>, catalogue: seq<Domain>, k: nat)
    requires k < |catalogue|
    ensures ListedCodes(names, catalogue, k + 1)
            == ListedCodes(names, catalogue, k) + If(multiset(names)[catalogue[k]] == 0, MissingDomain)
               + If(multiset(names)[catalogue[k]] > 1, DuplicateDomain)
  {
  }

  lemma ListedAll(names: seq<Domain>, catalogue: seq<Domain>)
    requires Catalogue(catalogue)
    ensures ListedCodes(names, catalogue, |catalogue|) == DomainListCodes(names, catalogue)
  {
    RepeatedKey(names);
    if LacksDomain(names, catalogue) {
      var d :| d in catalogue && d !in names;
      var i :| 0 <= i < |catalogue| && catalogue[i] == d;
      assert multiset(names)[catalogue[i]] == 0;
    }
    if exists i :: 0 <= i < |catalogue| && multiset(names)[catalogue[i]] == 0 {
      var i :| 0 <= i < |catalogue| && multiset(names)[catalogue[i]] == 0;
      assert catalogue[i] in catalogue && catalogue[i] !in names;
    }
    if !NoDup(names) {
      var d :| d in names && multiset(names)[d] > 1;
      assert d in catalogue;
      var i :| 0 <= i < |catalogue| && catalogue[i] == d;
    }
  }

  function ComparisonCodes(supplied: seq<DomainResult>, computed: seq<DomainResult>): set<Code> {
    If(SomeCountDiffers(supplied, computed), InconsistentDomainCount) + If(SomeScoreDiffers(supplied, computed), InconsistentDomainScore)
  }

  lemma ComparisonSnoc(supplied: seq<DomainResult>, computed: seq<DomainResult>, k: nat)
    requires k < |computed|
    ensures var actual := FindResult(supplied, computed[k].domain);
            ComparisonCodes(supplied, computed[..k + 1])
            == ComparisonCodes(supplied, computed[..k]) + If(CountDiffers(actual, computed[k]), InconsistentDomainCount)
               + If(ScoreDiffers(actual, computed[k]), InconsistentDomainScore)
  {
    assert computed[..k + 1] == computed[..k] + [computed[k]];
  }

  /** The supplied domain results against the computed ones. */
  method CompareDomains(supplied: seq<DomainResult>, computed: seq<DomainResult>) returns (issues: seq<Issue<Code>>)
    ensures Codes(issues) == ComparisonCodes(supplied, computed)
  {
    NoCodes<Code>();
    issues := [];
    for k := 0 to |computed|
      invariant Codes(issues) == ComparisonCodes(supplied, computed[..k])
    {
      var actual := FindResult(supplied, computed[k].domain);
      ComparisonSnoc(supplied, computed, k);
      issues := PushIf(CountDiffers(actual, computed[k]), issues, Issue(None, Some(k), InconsistentDomainCount));
      issues := PushIf(ScoreDiffers(actual, computed[k]), issues, Issue(None, Some(k), InconsistentDomainScore));
    }
    assert computed[..|computed|] == computed;
  }

  /** Coverage and overall score of a complete report. */
  method CompareWhole(s: Snapshot, computed: seq<DomainResult>, catalogue: seq<Domain>) returns (issues: seq<Issue<Code>>)
    requires computed == Computed(s, catalogue)
    ensures Codes(issues) == If(WrongCoverage(s, catalogue), InconsistentDomainCount) + If(WrongOverall(s), InconsistentOverallScore)
  {
    NoCodes<Code>();
    issues := [];
    if s.kind == Complete && SupportedCount(|s.questions|) {
      var assessed := |Filter(IsAssessed(), computed)|;
      var expected := if |s.questions| == 5 then 5 else 6;
      issues := PushIf(assessed != expected, issues, Issue(None, None, InconsistentDomainCount));
      var score := AggregateCompleteScore(SelectedScores(s.questions), |s.questions|);
      issues := PushIf(s.overallScore != score.value.overallScore, issues, Issue(None, None, InconsistentOverallScore));
    }
  }

  // ---------- versions ----------

  lemma {:induction false} VersionTableKeys(questions: seq<Feedback>)
    ensures VersionTable(questions).Keys == ToSet(Ids(questions))
  {
    if questions != [] {
      var n := |questions| - 1;
      VersionTableKeys(questions[..n]);
      assert Ids(questions) == Ids(questions[..n]) + [questions[n].questionId];
    }
  }

  lemma {:induction false} VersionsOfListed(versions: seq<QuestionVersion>, id: Id)
    ensures VersionsOf(versions, id) != [] <==> id in VersionIds(versions)
  {
    if versions != [] {
      var n := |versions| - 1;
      VersionsOfListed(versions[..n], id);
      assert VersionIds(versions) == VersionIds(versions[..n]) + [versions[n].questionId];
    }
  }

  /** The lists of versions per id. */
  method GroupVersions(versions: seq<QuestionVersion>) returns (byId: map<Id, seq<int>>)
    ensures byId.Keys == ToSet(VersionIds(versions))
    ensures forall id :: id in byId ==> byId[id] == VersionsOf(versions, id)
  {
    byId := map[];
    for k := 0 to |versions|
      invariant byId.Keys == ToSet(VersionIds(versions[..k]))
      invariant forall id :: id in byId ==> byId[id] == VersionsOf(versions[..k], id)
    {
      var v := versions[k];
      assert versions[..k + 1][..k] == versions[..k];
      assert VersionIds(versions[..k + 1]) == VersionIds(versions[..k]) + [v.questionId];
      VersionsOfListed(versions[..k], v.questionId);
      byId := byId[v.questionId := (if v.questionId in byId then byId[v.questionId] else []) + [v.questionVersion]];
    }
    assert versions[..|versions|] == versions;
  }

  /** The version stored for each question id. */
  method TableVersions(questions: seq<Feedback>) returns (table: map<Id, int>)
    ensures table == VersionTable(questions)
  {
    table := map[];
    for k := 0 to |questions|
      invariant table == VersionTable(questions[..k])
    {
      assert questions[..k + 1][..k] == questions[..k];
      table := table[questions[k].questionId := questions[k].questionVersion];
    }
    assert questions[..|questions|] == questions;
  }

  predicate NoneListed(listed: seq<int>) { |listed| == 0 }

  predicate ManyListed(listed: seq<int>) { |listed| > 1 }

  predicate OtherListed(listed: seq<int>, stored: int) { |listed| == 1 && listed[0] != stored }

  /** The codes of the stored ids looked up so far. */
  function LookupCodes(ids: seq<Id>, table: map<Id, int>, versions: seq<QuestionVersion>): set<Code> {
    If(exists id :: id in ids && NoneListed(VersionsOf(versions, id)), MissingVersion)
    + If(exists id :: id in ids && ManyListed(VersionsOf(versions, id)), DuplicateVersion)
    + If(exists id :: id in ids && id in table && OtherListed(VersionsOf(versions, id), table[id]), MismatchedVersion)
  }

  lemma LookupSnoc(ids: seq<Id>, table: map<Id, int>, versions: seq<QuestionVersion>, k: nat)
    requires k < |ids| && ids[k] in table
    ensures var listed := VersionsOf(versions, ids[k]);
            LookupCodes(ids[..k + 1], table, versions)
            == LookupCodes(ids[..k], table, versions) + If(NoneListed(listed), MissingVersion)
               + If(ManyListed(listed), DuplicateVersion) + If(OtherListed(listed, table[ids[k]]), MismatchedVersion)
  {
    assert ids[..k + 1] == ids[..k] + [ids[k]];
  }

  lemma LookupSame(a: seq<Id>, b: seq<Id>, table: map<Id, int>, versions: seq<QuestionVersion>)
    requires forall id :: id in a <==> id in b
    ensures LookupCodes(a, table, versions) == LookupCodes(b, table, versions)
  {
  }

  method LookupVersions(ids: seq<Id>, table: map<Id, int>, byId: map<Id, seq<int>>, ghost versions: seq<QuestionVersion>) returns (issues: seq<Issue<Code>>)
    requires forall id :: id in ids ==> id in table
    requires byId.Keys == ToSet(VersionIds(versions)) && forall id :: id in byId ==> byId[id] == VersionsOf(versions, id)
    ensures Codes(issues) == LookupCodes(ids, table, versions)
  {
    NoCodes<Code>();
    issues := [];
    for k := 0 to |ids|
      invariant Codes(issues) == LookupCodes(ids[..k], table, versions)
    {
      var listed := if ids[k] in byId then byId[ids[k]] else [];
      VersionsOfListed(versions, ids[k]);
      assert listed == VersionsOf(versions, ids[k]);
      LookupSnoc(ids, table, versions, k);
      issues := PushIf(NoneListed(listed), issues, Issue(None, Some(k), MissingVersion));
      issues := PushIf(ManyListed(listed), issues, Issue(None, Some(k), DuplicateVersion));
      issues := PushIf(OtherListed(listed, table[ids[k]]), issues, Issue(None, Some(k), MismatchedVersion));
    }
    assert ids[..|ids|] == ids;
  }

  method FindExtra(ids: seq<Id>, known: set<Id>) returns (issues: seq<Issue<Code>>)
    ensures Codes(issues) == If(exists id :: id in ids && id !in known, ExtraVersion)
  {
    NoCodes<Code>();
    issues := [];
    for k := 0 to |ids|
      invariant Codes(issues) == If(exists id :: id in ids[..k] && id !in known, ExtraVersion)
    {
      assert ids[..k + 1] == ids[..k] + [ids[k]];
      ExtraSnoc(ids, known, k);
      issues := PushIf(ids[k] !in known, issues, Issue(None, Some(k), ExtraVersion));
    }
    assert ids[..|ids|] == ids;
  }

  lemma ExtraSnoc(ids: seq<Id>, known: set<Id>, k: nat)
    requires k < |ids|
    ensures If(exists id :: id in ids[..k + 1] && id !in known, ExtraVersion)
            == If(exists id :: id in ids[..k] && id !in known, ExtraVersion) + If(ids[k] !in known, ExtraVersion)
  {
    assert ids[..k + 1] == ids[..k] + [ids[k]];
  }

  /** The version lists against the questions. */
  method QuestionVersionIssues(questions: seq<Feedback>, versions: seq<QuestionVersion>) returns (issues: seq<Issue<Code>>)
    ensures Codes(issues) == VersionCodes(questions, versions)
  {
    var table := TableVersions(questions);
    var byId := GroupVersions(versions);
    var stored, listed := Dedupe(Ids(questions)), Dedupe(VersionIds(versions));
    VersionTableKeys(questions);
    DedupeFacts(Ids(questions));
    DedupeFacts(VersionIds(versions));
    assert forall id :: id in stored ==> id in ToSet(Ids(questions));
    issues := LookupVersions(stored, table, byId, versions);
    LookupSame(stored, Ids(questions), table, versions);
    var extra := FindExtra(listed, table.Keys);
    ExtraSame(questions, versions, listed, table.Keys);
    issues := Join(issues, extra);
  }

  ghost function VersionCodes(questions: seq<Feedback>, versions: seq<QuestionVersion>): set<Code> {
    LookupCodes(Ids(questions), VersionTable(questions), versions) + If(SomeExtraVersion(questions, versions), ExtraVersion)
  }

  lemma ExtraSame(questions: seq<Feedback>, versions: seq<QuestionVersion>, listed: seq<Id>, known: set<Id>)
    requires known == ToSet(Ids(questions)) && forall id :: id in listed <==> id in VersionIds(versions)
    ensures (exists id :: id in listed && id !in known) <==> SomeExtraVersion(questions, versions)
  {
  }

  lemma VersionCodesMean(questions: seq<Feedback>, versions: seq<QuestionVersion>, code: Code)
    ensures code in VersionCodes(questions, versions) <==>
              match code
              case MissingVersion => SomeMissingVersion(questions, versions)
              case DuplicateVersion => SomeDuplicateVersion(questions, versions)
              case MismatchedVersion => SomeMismatchedVersion(questions, versions)
              case ExtraVersion => SomeExtraVersion(questions, versions)
              case _ => false
  {
  }

  // ---------- the whole validator ----------

  /** The positions that no question has. */
  method ValidatePositions(positions: seq<int>) returns (issues: seq<Issue<Code>>)
    ensures Codes(issues) == PositionCodes(positions)
  {
    issues := ReportRepeated(positions, DuplicatePosition);
    var known := ToSet(positions);
    var missing := Filter((p: int) => p !in known, seq(|positions|, i => i + 1));
    FilterMembers((p: int) => p !in known, seq(|positions|, i => i + 1));
    if MissingPositions(positions, |positions|) {
      var p :| 1 <= p <= |positions| && p !in positions;
      assert seq(|positions|, i => i + 1)[p - 1] == p;
      assert p in missing;
    }
    if missing != [] {
      assert missing[0] in missing;
    }
    issues := PushIf(|missing| > 0, issues, Issue(None, None, NonContiguousPosition));
  }

  /** The codes of domains, positions and ids. */
  ghost function ListCodes(s: Snapshot, catalogue: seq<Domain>): set<Code> {
    DomainListCodes(ResultDomains(s.domains), catalogue) + AllFeedbackCodes(s.questions)
    + PositionCodes(Positions(s.questions)) + If(!NoDup(Ids(s.questions)), DuplicateQuestionId)
  }

  ghost function DomainListCodes(names: seq<Domain>, catalogue: seq<Domain>): set<Code> {
    If(LacksDomain(names, catalogue), MissingDomain) + If(!NoDup(names), DuplicateDomain)
  }

  ghost function PositionCodes(positions: seq<int>): set<Code> {
    If(!NoDup(positions), DuplicatePosition) + If(MissingPositions(positions, |positions|), NonContiguousPosition)
  }

  lemma PairMeans(a: bool, b: bool, x: Code, y: Code, code: Code)
    ensures code in If(a, x) + If(b, y) <==> (a && code == x) || (b && code == y)
  {
  }

  lemma InFour(a: set<Code>, b: set<Code>, c: set<Code>, d: set<Code>, code: Code)
    ensures code in a + b + c + d <==> code in a || code in b || code in c || code in d
  {
  }

  lemma FeedbackCodesMean(questions: seq<Feedback>, code: Code)
    ensures code in AllFeedbackCodes(questions) <==>
              || (code == DuplicateRubricAward && SomeRepeatedAward(questions)) || (code == InvalidEvidenceReference && SomeBadEvidence(questions))
              || (code == InconsistentQuestionScore && SomeBadScore(questions))
  {
  }

  ghost function ScoreCodes(s: Snapshot, catalogue: seq<Domain>): set<Code> {
    ComparisonCodes(s.domains, Computed(s, catalogue))
    + (If(WrongCoverage(s, catalogue), InconsistentDomainCount) + If(WrongOverall(s), InconsistentOverallScore))
  }

  lemma ListCodesMean(s: Snapshot, catalogue: seq<Domain>, code: Code)
    ensures code in ListCodes(s, catalogue) <==>
              match code
              case MissingDomain => LacksDomain(ResultDomains(s.domains), catalogue)
              case DuplicateDomain => !NoDup(ResultDomains(s.domains))
              case DuplicatePosition => !NoDup(Positions(s.questions))
              case NonContiguousPosition => MissingPositions(Positions(s.questions), |s.questions|)
              case DuplicateQuestionId => !NoDup(Ids(s.questions))
              case DuplicateRubricAward => SomeRepeatedAward(s.questions)
              case InvalidEvidenceReference => SomeBadEvidence(s.questions)
              case InconsistentQuestionScore => SomeBadScore(s.questions)
              case _ => false
  {
    PairMeans(LacksDomain(ResultDomains(s.domains), catalogue), !NoDup(ResultDomains(s.domains)), MissingDomain, DuplicateDomain, code);
    PairMeans(!NoDup(Positions(s.questions)), MissingPositions(Positions(s.questions), |s.questions|), DuplicatePosition, NonContiguousPosition, code);
    FeedbackCodesMean(s.questions, code);
    InFour(DomainListCodes(ResultDomains(s.domains), catalogue), AllFeedbackCodes(s.questions), PositionCodes(Positions(s.questions)),
           If(!NoDup(Ids(s.questions)), DuplicateQuestionId), code);
  }

  lemma ScoreCodesMean(s: Snapshot, catalogue: seq<Domain>, code: Code)
    ensures code in ScoreCodes(s, catalogue) <==>
              match code
              case InconsistentDomainCount => SomeCountDiffers(s.domains, Computed(s, catalogue)) || WrongCoverage(s, catalogue)
              case InconsistentDomainScore => SomeScoreDiffers(s.domains, Computed(s, catalogue))
              case InconsistentOverallScore => WrongOverall(s)
              case _ => false
  {
  }

  lemma AllCodesMean(s: Snapshot, catalogue: seq<Domain>, code: Code)
    ensures code in ListCodes(s, catalogue) + ScoreCodes(s, catalogue) + VersionCodes(s.questions, s.questionVersions)
            <==> Violates(s, catalogue, code)
  {
    ListCodesMean(s, catalogue, code);
    ScoreCodesMean(s, catalogue, code);
    VersionCodesMean(s.questions, s.questionVersions, code);
  }

  method ValidateLists(s: Snapshot, catalogue: seq<Domain>) returns (issues: seq<Issue<Code>>)
    requires Catalogue(catalogue)
    ensures Codes(issues) == ListCodes(s, catalogue)
  {
    issues := ValidateDomainList(s.domains, catalogue);
    var feedback := ValidateAllFeedback(s.questions);
    issues := Join(issues, feedback);
    var positions := ValidatePositions(Positions(s.questions));
    issues := Join(issues, positions);
    var repeated := ReportRepeated(Ids(s.questions), DuplicateQuestionId);
    issues := Join(issues, repeated);
  }

  /** `semanticIssues`: a code is reported exactly when the snapshot violates it, so a snapshot passes
      exactly when it violates no code. */
  method SemanticIssues(s: Snapshot, catalogue: seq<Domain>) returns (issues: seq<Issue<Code>>)
    requires Catalogue(catalogue)
    ensures forall code :: code in Codes(issues) <==> Violates(s, catalogue, code)
    ensures issues == [] <==> forall code :: !Violates(s, catalogue, code)
  {
    issues := ValidateLists(s, catalogue);
    var computed := Computed(s, catalogue);
    var comparison := CompareDomains(s.domains, computed);
    var whole := CompareWhole(s, computed, catalogue);
    issues := Join(issues, Join(comparison, whole));
    var versions := QuestionVersionIssues(s.questions, s.questionVersions);
    issues := Join(issues, versions);
    forall code ensures code in Codes(issues) <==> Violates(s, catalogue, code) {
      AllCodesMean(s, catalogue, code);
    }
    NoCodes<Code>();
    if issues != [] {
      assert issues[|issues| - 1].code in Codes(issues);
    }
  }
}
