/** What a consistent report is, without issue codes: the validator reports nothing exactly for these. */
module ReportMeaning {
  import opened Basics
  import opened Sequences
  import opened InterviewModel
  import opened Scoring
  import opened Reports
  import opened ReportValidator
  import opened ReportContents

  // ---------- consistency ----------

  function TotalMatched(points: seq<MatchedPoint>): int {
    if points == [] then 0 else points[0].awardedPoints + TotalMatched(points[1..])
  }

  /** The reference is listed with the question, and a reference to a question is to this one. */
  predicate Supports(f: Feedback, e: Evidence) {
    e in f.evidence && (e.FromQuestion? ==> e.questionId == f.questionId)
  }

  predicate AllSupport(f: Feedback, references: seq<Evidence>) {
    forall n :: 0 <= n < |references| ==> Supports(f, references[n])
  }

  /** No rubric item is matched twice, every reference supports the question, and the points are the outcome's. */
  predicate FeedbackConsistent(f: Feedback) {
    && (forall a, b :: 0 <= a < b < |f.matched| ==> f.matched[a].rubricItemId != f.matched[b].rubricItemId)
    && (forall n :: 0 <= n < |f.matched| ==> AllSupport(f, f.matched[n].evidence))
    && (forall n :: 0 <= n < |f.missing| ==> AllSupport(f, f.missing[n].evidence))
    && AllSupport(f, f.evidence)
    && TotalMatched(f.matched) == if f.outcome.Scored? then f.outcome.points else 0
  }

  predicate Placed(questions: seq<Feedback>, position: int) {
    exists k :: 0 <= k < |questions| && questions[k].position == position
  }

  predicate Asked(questions: seq<Feedback>, id: Id) {
    exists k :: 0 <= k < |questions| && questions[k].questionId == id
  }

  /** Different ids, and the positions are 1 to the number of questions. */
  predicate QuestionsConsistent(questions: seq<Feedback>) {
    && (forall a, b :: 0 <= a < b < |questions| ==> questions[a].questionId != questions[b].questionId)
    && (forall a, b :: 0 <= a < b < |questions| ==> questions[a].position != questions[b].position)
    && (forall p :: 1 <= p <= |questions| ==> Placed(questions, p))
    && (forall k :: 0 <= k < |questions| ==> FeedbackConsistent(questions[k]))
  }

  /** Each domain has one result, with the number of its questions and their rounded mean. */
  ghost predicate DomainsConsistent(s: Snapshot, catalogue: seq<Domain>) {
    && (forall a, b :: 0 <= a < b < |s.domains| ==> s.domains[a].domain != s.domains[b].domain)
    && (forall d :: d in catalogue ==> exists k :: 0 <= k < |s.domains| && ResultFor(s.domains[k], s.questions, d))
  }

  /** How many of the domains have questions. */
  function Covered(questions: seq<Feedback>, domains: seq<Domain>): nat {
    if domains == [] then 0 else (if QuestionsIn(questions, domains[0]) > 0 then 1 else 0) + Covered(questions, domains[1..])
  }

  /** A complete report of a supported size covers five domains with five questions and else all six, and its score is
      the rounded mean of all questions. */
  predicate WholeConsistent(s: Snapshot, catalogue: seq<Domain>) {
    s.kind == Complete && (|s.questions| == 5 || |s.questions| == 10 || |s.questions| == 15) ==>
      && Covered(s.questions, catalogue) == (if |s.questions| == 5 then 5 else 6)
      && Rounded(s.overallScore, AllPointsOf(s.questions), |s.questions|)
  }

  predicate OnlyAt(versions: seq<QuestionVersion>, id: Id, j: nat) {
    j < |versions| && versions[j].questionId == id && forall m :: 0 <= m < |versions| && m != j ==> versions[m].questionId != id
  }

  /** Each question is listed once, with its version, and nothing else is listed. */
  predicate VersionsConsistent(questions: seq<Feedback>, versions: seq<QuestionVersion>) {
    && (forall k :: 0 <= k < |questions| ==> ListedOnce(versions, questions[k].questionId, questions[k].questionVersion))
    && (forall j :: 0 <= j < |versions| ==> Asked(questions, versions[j].questionId))
  }

  predicate ListedOnce(versions: seq<QuestionVersion>, id: Id, version: int) {
    exists j: nat :: j < |versions| && OnlyAt(versions, id, j) && versions[j].questionVersion == version
  }

  // ---------- one question ----------

  lemma ReferencesSupport(f: Feedback, references: seq<Evidence>)
    ensures !BadReferences(f, references) <==> AllSupport(f, references)
  {
    if !BadReferences(f, references) {
      forall n | 0 <= n < |references| ensures Supports(f, references[n]) {
        assert references[n] in references;
      }
    }
  }

  lemma {:induction false} TotalIsMatchedTotal(points: seq<MatchedPoint>)
    ensures TotalMatched(points) == MatchedTotal(points)
  {
    if points != [] {
      TotalIsMatchedTotal(points[1..]);
      var value := (p: MatchedPoint) => p.awardedPoints;
      assert Map(value, points) == [points[0].awardedPoints] + Map(value, points[1..]);
      assert MatchedTotal(points) == Sum(Map(value, points)) && MatchedTotal(points[1..]) == Sum(Map(value, points[1..]));
    }
  }

  lemma EvidenceIsSupported(f: Feedback)
    ensures !BadEvidence(f) <==>
              && (forall n :: 0 <= n < |f.matched| ==> AllSupport(f, f.matched[n].evidence))
              && (forall n :: 0 <= n < |f.missing| ==> AllSupport(f, f.missing[n].evidence))
              && AllSupport(f, f.evidence)
  {
    ReferencesSupport(f, f.evidence);
    forall n | 0 <= n < |f.matched| ensures AllSupport(f, f.matched[n].evidence) <==> !BadReferences(f, f.matched[n].evidence) {
      ReferencesSupport(f, f.matched[n].evidence);
    }
    forall n | 0 <= n < |f.missing| ensures AllSupport(f, f.missing[n].evidence) <==> !BadReferences(f, f.missing[n].evidence) {
      ReferencesSupport(f, f.missing[n].evidence);
    }
    if !BadEvidence(f) {
      forall n | 0 <= n < |f.matched| ensures !BadReferences(f, f.matched[n].evidence) {
        assert f.matched[n] in f.matched;
      }
      forall n | 0 <= n < |f.missing| ensures !BadReferences(f, f.missing[n].evidence) {
        assert f.missing[n] in f.missing;
      }
    }
  }

  lemma FeedbackIsConsistent(f: Feedback)
    ensures FeedbackConsistent(f) <==> NoDup(MatchedIds(f.matched)) && !BadEvidence(f) && MatchedTotal(f.matched) == f.outcome.Score()
  {
    NoDupByIndex(MatchedIds(f.matched));
    EvidenceIsSupported(f);
    TotalIsMatchedTotal(f.matched);
  }

  // ---------- all questions ----------

  predicate NothingWrongWith(questions: seq<Feedback>) {
    && NoDup(Ids(questions)) && NoDup(Positions(questions)) && !MissingPositions(Positions(questions), |questions|)
    && !SomeRepeatedAward(questions) && !SomeBadEvidence(questions) && !SomeBadScore(questions)
  }

  lemma PositionsAreAll(questions: seq<Feedback>)
    ensures !MissingPositions(Positions(questions), |questions|)
            <==> forall p :: 1 <= p <= |questions| ==> Placed(questions, p)
  {
    forall p ensures p in Positions(questions) <==> Placed(questions, p) {
      if k :| 0 <= k < |questions| && questions[k].position == p {
        assert Positions(questions)[k] == p;
      }
    }
  }

  lemma EachIsConsistent(questions: seq<Feedback>)
    ensures !SomeRepeatedAward(questions) && !SomeBadEvidence(questions) && !SomeBadScore(questions)
            <==> forall k :: 0 <= k < |questions| ==> FeedbackConsistent(questions[k])
  {
    forall k | 0 <= k < |questions|
      ensures FeedbackConsistent(questions[k])
              <==> NoDup(MatchedIds(questions[k].matched)) && !BadEvidence(questions[k])
                   && MatchedTotal(questions[k].matched) == questions[k].outcome.Score()
    {
      FeedbackIsConsistent(questions[k]);
    }
    if !SomeRepeatedAward(questions) && !SomeBadEvidence(questions) && !SomeBadScore(questions) {
      forall k | 0 <= k < |questions| ensures FeedbackConsistent(questions[k]) {
        assert questions[k] in questions;
      }
    }
  }

  lemma QuestionsAreConsistent(questions: seq<Feedback>)
    ensures QuestionsConsistent(questions) <==> NothingWrongWith(questions)
  {
    NoDupByIndex(Ids(questions));
    NoDupByIndex(Positions(questions));
    PositionsAreAll(questions);
    EachIsConsistent(questions);
  }

  // ---------- domains ----------

  /** The mean rounded to the nearest number is one number. */
  lemma RoundedIsOne(a: int, b: int, points: int, count: int)
    requires count > 0 && Rounded(a, points, count) && Rounded(b, points, count)
    ensures a == b
  {
    ProductOrder(count, a, b);
    ProductOrder(count, b, a);
  }

  lemma ResultIsExpected(r: DomainResult, questions: seq<Feedback>, d: Domain)
    requires r.domain == d
    ensures var e := AggregateDomain(SelectedScores(questions), d);
            ResultFor(r, questions, d) <==> !CountDiffers(Some(r), e) && !ScoreDiffers(Some(r), e)
  {
    var e := AggregateDomain(SelectedScores(questions), d);
    ResultIs(questions, d);
    if ResultFor(r, questions, d) && r.Assessed? {
      RoundedIsOne(r.score, e.score, PointsIn(questions, d), r.questionCount);
    }
  }

  lemma {:induction false} FindAt(results: seq<DomainResult>, k: nat)
    requires k < |results| && forall a, b :: 0 <= a < b < |results| ==> results[a].domain != results[b].domain
    ensures FindResult(results, results[k].domain) == Some(results[k])
  {
    if k > 0 {
      FindAt(results[1..], k - 1);
    }
  }

  lemma {:induction false} FoundIsThere(results: seq<DomainResult>, d: Domain)
    ensures FindResult(results, d).Some? <==> d in ResultDomains(results)
    ensures FindResult(results, d).Some? ==> exists k :: 0 <= k < |results| && results[k] == FindResult(results, d).value && results[k].domain == d
  {
    if results != [] {
      FoundIsThere(results[1..], d);
      assert ResultDomains(results) == [results[0].domain] + ResultDomains(results[1..]);
      if results[0].domain != d && FindResult(results, d).Some? {
        var k :| 0 <= k < |results[1..]| && results[1..][k] == FindResult(results, d).value && results[1..][k].domain == d;
        assert results[k + 1] == results[1..][k];
      }
    }
  }

  predicate FitsDomain(s: Snapshot, d: Domain) {
    var e, actual := AggregateDomain(SelectedScores(s.questions), d), FindResult(s.domains, d);
    d in ResultDomains(s.domains) && !CountDiffers(actual, e) && !ScoreDiffers(actual, e)
  }

  lemma DomainFits(s: Snapshot, d: Domain)
    requires forall a, b :: 0 <= a < b < |s.domains| ==> s.domains[a].domain != s.domains[b].domain
    ensures FitsDomain(s, d) <==> exists k :: 0 <= k < |s.domains| && ResultFor(s.domains[k], s.questions, d)
  {
    FoundIsThere(s.domains, d);
    if FitsDomain(s, d) {
      ResultIsExpected(FindResult(s.domains, d).value, s.questions, d);
    }
    if k :| 0 <= k < |s.domains| && ResultFor(s.domains[k], s.questions, d) {
      FindAt(s.domains, k);
      ResultIsExpected(s.domains[k], s.questions, d);
    }
  }

  lemma AllFit(s: Snapshot, catalogue: seq<Domain>)
    ensures (forall d :: d in catalogue ==> FitsDomain(s, d)) <==>
              && !LacksDomain(ResultDomains(s.domains), catalogue)
              && !SomeCountDiffers(s.domains, Computed(s, catalogue)) && !SomeScoreDiffers(s.domains, Computed(s, catalogue))
  {
    var computed := Computed(s, catalogue);
    forall e | e in computed ensures e.domain in catalogue && e == AggregateDomain(SelectedScores(s.questions), e.domain) {
      var n :| 0 <= n < |computed| && computed[n] == e;
      assert computed[n] == AggregateDomain(SelectedScores(s.questions), catalogue[n]);
    }
    forall d | d in catalogue
      ensures AggregateDomain(SelectedScores(s.questions), d) in computed && AggregateDomain(SelectedScores(s.questions), d).domain == d
    {
      var n :| 0 <= n < |catalogue| && catalogue[n] == d;
      assert computed[n] == AggregateDomain(SelectedScores(s.questions), d);
    }
  }

  predicate NothingWrongWithDomains(s: Snapshot, catalogue: seq<Domain>) {
    && NoDup(ResultDomains(s.domains)) && !LacksDomain(ResultDomains(s.domains), catalogue)
    && !SomeCountDiffers(s.domains, Computed(s, catalogue)) && !SomeScoreDiffers(s.domains, Computed(s, catalogue))
  }

  lemma DomainsAreConsistent(s: Snapshot, catalogue: seq<Domain>)
    ensures DomainsConsistent(s, catalogue) <==> NothingWrongWithDomains(s, catalogue)
  {
    NoDupByIndex(ResultDomains(s.domains));
    AllFit(s, catalogue);
    if forall a, b :: 0 <= a < b < |s.domains| ==> s.domains[a].domain != s.domains[b].domain {
      forall d ensures FitsDomain(s, d) <==> exists k :: 0 <= k < |s.domains| && ResultFor(s.domains[k], s.questions, d) {
        DomainFits(s, d);
      }
    }
  }

  // ---------- the whole ----------

  lemma {:induction false} CoveredAreAssessed(questions: seq<Feedback>, domains: seq<Domain>)
    ensures |Filter(IsAssessed(), Map(Aggregator(SelectedScores(questions)), domains))| == Covered(questions, domains)
  {
    if domains != [] {
      CoveredAreAssessed(questions, domains[1..]);
      MapCons(Aggregator(SelectedScores(questions)), domains);
      ResultIs(questions, domains[0]);
      var results := Map(Aggregator(SelectedScores(questions)), domains);
      assert results[0] == AggregateDomain(SelectedScores(questions), domains[0]);
      assert results[1..] == Map(Aggregator(SelectedScores(questions)), domains[1..]);
    }
  }

  lemma WholeIsConsistent(s: Snapshot, catalogue: seq<Domain>)
    ensures WholeConsistent(s, catalogue) <==> !WrongCoverage(s, catalogue) && !WrongOverall(s)
  {
    CoveredAreAssessed(s.questions, catalogue);
    if CheckedWhole(s) {
      var scores := ScoresOf(SelectedScores(s.questions));
      AllTotals(s.questions);
      RoundedAverages(scores);
      if Rounded(s.overallScore, AllPointsOf(s.questions), |s.questions|) {
        RoundedIsOne(s.overallScore, RoundedAverage(scores), AllPointsOf(s.questions), |s.questions|);
      }
    }
  }

  // ---------- versions ----------

  lemma {:induction false} ListedOnceIs(versions: seq<QuestionVersion>, id: Id, version: int)
    ensures VersionsOf(versions, id) == [version] <==> ListedOnce(versions, id, version)
  {
    if versions != [] {
      var n := |versions| - 1;
      var front, last := versions[..n], versions[n];
      ListedOnceIs(front, id, version);
      VersionsOfListed(front, id);
      assert versions == front + [last];
      if last.questionId == id {
        NotListed(front, id);
        OnlyLast(front, last, version);
        Appended(VersionsOf(front, id), last.questionVersion, version);
        assert VersionsOf(versions, id) == VersionsOf(front, id) + [last.questionVersion];
      } else {
        OnlyInFront(front, last, id);
        assert VersionsOf(versions, id) == VersionsOf(front, id);
      }
    }
  }

  lemma Appended(front: seq<int>, last: int, version: int)
    ensures front + [last] == [version] <==> front == [] && last == version
  {
    if front + [last] == [version] {
      assert |front + [last]| == |front| + 1;
      assert (front + [last])[0] == last;
    }
  }

  lemma OnlyLast(front: seq<QuestionVersion>, last: QuestionVersion, version: int)
    ensures ListedOnce(front + [last], last.questionId, version)
            <==> last.questionVersion == version && forall m :: 0 <= m < |front| ==> front[m].questionId != last.questionId
  {
    var versions, n := front + [last], |front|;
    if ListedOnce(versions, last.questionId, version) {
      var j: nat :| j < |versions| && OnlyAt(versions, last.questionId, j) && versions[j].questionVersion == version;
      assert versions[n] == last && j == n;
      forall m | 0 <= m < n ensures front[m].questionId != last.questionId {
        assert versions[m] == front[m];
      }
    }
    if last.questionVersion == version && forall m :: 0 <= m < n ==> front[m].questionId != last.questionId {
      assert OnlyAt(versions, last.questionId, n);
    }
  }

  lemma OnlyInFront(front: seq<QuestionVersion>, last: QuestionVersion, id: Id)
    requires last.questionId != id
    ensures forall j: nat :: OnlyAt(front + [last], id, j) <==> OnlyAt(front, id, j)
  {
    var versions := front + [last];
    forall j: nat ensures OnlyAt(versions, id, j) <==> OnlyAt(front, id, j) {
      if OnlyAt(versions, id, j) {
        forall m | 0 <= m < |front| && m != j ensures front[m].questionId != id {
          assert versions[m] == front[m];
        }
      }
    }
  }

  lemma NotListed(versions: seq<QuestionVersion>, id: Id)
    ensures VersionsOf(versions, id) == [] <==> forall m :: 0 <= m < |versions| ==> versions[m].questionId != id
  {
    VersionsOfListed(versions, id);
    if m :| 0 <= m < |versions| && versions[m].questionId == id {
      assert VersionIds(versions)[m] == id;
    }
  }

  lemma {:induction false} TableHolds(questions: seq<Feedback>, k: nat)
    requires k < |questions| && forall a, b :: 0 <= a < b < |questions| ==> questions[a].questionId != questions[b].questionId
    ensures questions[k].questionId in VersionTable(questions)
            && VersionTable(questions)[questions[k].questionId] == questions[k].questionVersion
  {
    var n := |questions| - 1;
    if k < n {
      TableHolds(questions[..n], k);
    }
  }

  predicate NothingWrongWithVersions(questions: seq<Feedback>, versions: seq<QuestionVersion>) {
    && !SomeMissingVersion(questions, versions) && !SomeDuplicateVersion(questions, versions)
    && !SomeMismatchedVersion(questions, versions) && !SomeExtraVersion(questions, versions)
  }

  lemma ExtraIs(questions: seq<Feedback>, versions: seq<QuestionVersion>)
    ensures !SomeExtraVersion(questions, versions)
            <==> forall j :: 0 <= j < |versions| ==> Asked(questions, versions[j].questionId)
  {
    forall id ensures id in Ids(questions) <==> Asked(questions, id) {
      if k :| 0 <= k < |questions| && questions[k].questionId == id {
        assert Ids(questions)[k] == id;
      }
    }
    if !SomeExtraVersion(questions, versions) {
      forall j | 0 <= j < |versions| ensures versions[j].questionId in Ids(questions) {
        assert VersionIds(versions)[j] == versions[j].questionId;
      }
    }
  }

  lemma LookupsAre(questions: seq<Feedback>, versions: seq<QuestionVersion>)
    requires forall a, b :: 0 <= a < b < |questions| ==> questions[a].questionId != questions[b].questionId
    ensures !SomeMissingVersion(questions, versions) && !SomeDuplicateVersion(questions, versions) && !SomeMismatchedVersion(questions, versions)
            <==> forall k :: 0 <= k < |questions| ==> VersionsOf(versions, questions[k].questionId) == [questions[k].questionVersion]
  {
    forall k | 0 <= k < |questions|
      ensures questions[k].questionId in VersionTable(questions)
              && VersionTable(questions)[questions[k].questionId] == questions[k].questionVersion && questions[k].questionId in Ids(questions)
    {
      TableHolds(questions, k);
      assert Ids(questions)[k] == questions[k].questionId;
    }
    if forall k :: 0 <= k < |questions| ==> VersionsOf(versions, questions[k].questionId) == [questions[k].questionVersion] {
      forall id | id in Ids(questions) ensures VersionsOf(versions, id) == [VersionTable(questions)[id]] {
        var k :| 0 <= k < |questions| && Ids(questions)[k] == id;
      }
    }
  }

  lemma VersionsAreConsistent(questions: seq<Feedback>, versions: seq<QuestionVersion>)
    requires forall a, b :: 0 <= a < b < |questions| ==> questions[a].questionId != questions[b].questionId
    ensures VersionsConsistent(questions, versions) <==> NothingWrongWithVersions(questions, versions)
  {
    ExtraIs(questions, versions);
    LookupsAre(questions, versions);
    forall k | 0 <= k < |questions|
      ensures VersionsOf(versions, questions[k].questionId) == [questions[k].questionVersion]
              <==> ListedOnce(versions, questions[k].questionId, questions[k].questionVersion)
    {
      ListedOnceIs(versions, questions[k].questionId, questions[k].questionVersion);
    }
  }

  // ---------- no issue ----------

  predicate Unviolated(s: Snapshot, catalogue: seq<Domain>) {
    && NothingWrongWith(s.questions) && NothingWrongWithDomains(s, catalogue)
    && !WrongCoverage(s, catalogue) && !WrongOverall(s) && NothingWrongWithVersions(s.questions, s.questionVersions)
  }

  lemma UnviolatedHasNoCode(s: Snapshot, catalogue: seq<Domain>, code: Code)
    requires Unviolated(s, catalogue)
    ensures !Violates(s, catalogue, code)
  {
  }

  lemma QuestionCodes(s: Snapshot, catalogue: seq<Domain>)
    requires forall code :: !Violates(s, catalogue, code)
    ensures NothingWrongWith(s.questions)
  {
    assert !Violates(s, catalogue, DuplicatePosition) && !Violates(s, catalogue, NonContiguousPosition);
    assert !Violates(s, catalogue, DuplicateQuestionId) && !Violates(s, catalogue, DuplicateRubricAward);
    assert !Violates(s, catalogue, InvalidEvidenceReference) && !Violates(s, catalogue, InconsistentQuestionScore);
  }

  lemma DomainCodes(s: Snapshot, catalogue: seq<Domain>)
    requires forall code :: !Violates(s, catalogue, code)
    ensures NothingWrongWithDomains(s, catalogue) && !WrongCoverage(s, catalogue) && !WrongOverall(s)
  {
    assert !Violates(s, catalogue, MissingDomain) && !Violates(s, catalogue, DuplicateDomain);
    assert !Violates(s, catalogue, InconsistentDomainCount) && !Violates(s, catalogue, InconsistentDomainScore);
    assert !Violates(s, catalogue, InconsistentOverallScore);
  }

  lemma VersionCodesAre(s: Snapshot, catalogue: seq<Domain>)
    requires forall code :: !Violates(s, catalogue, code)
    ensures NothingWrongWithVersions(s.questions, s.questionVersions)
  {
    assert !Violates(s, catalogue, MissingVersion) && !Violates(s, catalogue, DuplicateVersion);
    assert !Violates(s, catalogue, MismatchedVersion) && !Violates(s, catalogue, ExtraVersion);
  }

  lemma NoCodeIsViolated(s: Snapshot, catalogue: seq<Domain>)
    ensures (forall code :: !Violates(s, catalogue, code)) <==> Unviolated(s, catalogue)
  {
    if Unviolated(s, catalogue) {
      forall code ensures !Violates(s, catalogue, code) {
        UnviolatedHasNoCode(s, catalogue, code);
      }
    } else if forall code :: !Violates(s, catalogue, code) {
      QuestionCodes(s, catalogue);
      DomainCodes(s, catalogue);
      VersionCodesAre(s, catalogue);
    }
  }

  ghost predicate Consistent(s: Snapshot, catalogue: seq<Domain>) {
    && QuestionsConsistent(s.questions) && DomainsConsistent(s, catalogue) && WholeConsistent(s, catalogue)
    && VersionsConsistent(s.questions, s.questionVersions)
  }

  /** The validator finds nothing in a snapshot if and only if it is consistent. */
  lemma NoIssueMeans(s: Snapshot, catalogue: seq<Domain>)
    ensures (forall code :: !Violates(s, catalogue, code)) <==> Consistent(s, catalogue)
  {
    NoCodeIsViolated(s, catalogue);
    QuestionsAreConsistent(s.questions);
    DomainsAreConsistent(s, catalogue);
    WholeIsConsistent(s, catalogue);
    NoDupByIndex(Ids(s.questions));
    if QuestionsConsistent(s.questions) {
      VersionsAreConsistent(s.questions, s.questionVersions);
    }
  }
}
