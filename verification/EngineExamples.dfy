/** Concrete interviews: a question in two versions, and a clarification that is retried after its completion. */
module EngineExamples {
  import opened Basics
  import opened Sequences
  import opened TextOrder
  import opened InterviewModel
  import opened Coverage
  import opened Scoring
  import opened Engine
  import opened EngineInvariant
  import opened EngineRuns
  import opened ReportBuilder
  import opened ReportTheorems

  // ---------- a blueprint with one question in two versions ----------

  const PLAIN: string := "x"

  function Asked(id: string, version: int, domain: Domain): Question {
    Question(Id(id), version, domain, PLAIN, PLAIN, [RubricItem(Id("r"), PLAIN, 100)],
             [FollowUpGoal(Id("g"), Clarification, PLAIN)], PLAIN)
  }

  /** The first two questions are versions 1 and 2 of one question, which changed its domain. */
  const TWICE: seq<Question> := [
    Asked("a", 1, GoLanguage), Asked("a", 2, ConcurrencyRuntimePerformance), Asked("b", 1, HttpRpcApi),
    Asked("c", 1, DatabaseStorage), Asked("d", 1, CacheMessagingDistributed)]

  function Items(questions: seq<Question>): (items: seq<BlueprintItem>)
    ensures |items| == |questions|
  {
    seq(|questions|, k requires 0 <= k < |questions| => BlueprintItem(k + 1, questions[k]))
  }

  const TWO_VERSIONS: Blueprint := Blueprint(PLAIN, Some(TestingObservabilityEngineering), Items(TWICE))

  lemma PlainIsValid(id: string, version: int, domain: Domain)
    requires version >= 1
    ensures ValidSnapshot(Asked(id, version, domain))
  {
    var q := Asked(id, version, domain);
    assert !IsSpace(PLAIN[0]);
    assert NonBlank(PLAIN);
    assert RubricIds(q.rubric) == [Id("r")] && GoalIds(q.followUpGoals) == [Id("g")];
    NoDupFromIndex([Id("r")]);
    NoDupFromIndex([Id("g")]);
    assert Weights(q.rubric) == [100] && Sum([100]) == 100;
    assert q.followUpGoals[0].kind == Clarification;
  }

  lemma DomainsOfTwice(d: Domain)
    ensures CountIn(d, TWICE) <= 1
    ensures CountIn(TestingObservabilityEngineering, TWICE) == 0
  {
    DomainsFrom(d, TWICE);
    DomainsFrom(TestingObservabilityEngineering, TWICE);
  }

  lemma {:induction false} DomainsFrom(d: Domain, questions: seq<Question>)
    requires forall i, j :: 0 <= i < j < |questions| ==> questions[i].domain != questions[j].domain
    ensures CountIn(d, questions) <= 1
    ensures (forall q :: q in questions ==> q.domain != d) ==> CountIn(d, questions) == 0
  {
    if questions != [] {
      DomainsFrom(d, questions[1..]);
    }
  }

  lemma TwoVersionsAreValid()
    ensures ValidBlueprint(TWO_VERSIONS, 5)
    ensures QuestionId(TWO_VERSIONS.questions, 0) == QuestionId(TWO_VERSIONS.questions, 1)
  {
    var items := TWO_VERSIONS.questions;
    assert SnapshotsOf(items) == TWICE;
    forall k | 0 <= k < |items| ensures ItemFits(items, k) {
      PlainIsValid(TWICE[k].questionId.text, TWICE[k].questionVersion, TWICE[k].domain);
    }
    var keys := QuestionKeys(items);
    assert keys == [(Id("a"), 1), (Id("a"), 2), (Id("b"), 1), (Id("c"), 1), (Id("d"), 1)];
    NoDupFromIndex(keys);
    forall d: Domain ensures CountIn(d, TWICE) <= 1 {
      DomainsOfTwice(d);
    }
    DomainsOfTwice(GoLanguage);
  }

  function QuestionId(items: seq<BlueprintItem>, k: nat): Id
    requires k < |items|
  {
    items[k].question.questionId
  }

  // ---------- runs ----------

  /** The steps lead from `w` to `v`. */
  ghost predicate Leads(w: World, steps: seq<Step>, v: World) {
    Run(w, steps) == v
  }

  lemma LeadsOne(w: World, s: Step)
    ensures Leads(w, [s], EngineRuns.Next(w, s))
  {
    assert [s][1..] == [];
  }

  lemma {:induction false} LeadsOn(w: World, first: seq<Step>, v: World, second: seq<Step>, u: World)
    requires Leads(w, first, v) && Leads(v, second, u)
    ensures Leads(w, first + second, u)
    decreases |first|
  {
    if first == [] {
      assert first + second == second;
    } else {
      LeadsOn(EngineRuns.Next(w, first[0]), first[1..], v, second, u);
      assert (first + second)[1..] == first[1..] + second;
    }
  }

  /** The next command of the run, at the time of the creation. */
  function Now(c: Command, version: int, body: CommandBody): Command {
    Command(c.interviewId, c.operationId, version, c.occurredAt, body)
  }

  /** An interview that is open at the time of its creation, in this phase at question `n`. */
  ghost predicate OpenAt(w: World, c: Command, n: int, phase: Phase) {
    && c.body.CreateInterview? && Sound(w) && w.plan.None? && w.interview.Some? &&
    var i := w.interview.value;
    && i.id == c.interviewId && i.blueprint == c.body.blueprint && i.questionCount == c.body.questionCount
    && i.lastActivityAt == c.occurredAt && i.status == Active && i.phase == Some(phase) && i.current == n
  }

  lemma CreatedIsOpen(c: Command) returns (steps: seq<Step>, w: World)
    requires c.body.CreateInterview? && Create(c).Ok?
    ensures steps == [Do(c)] && Leads(NOTHING, steps, w) && OpenAt(w, c, 1, AwaitingResponse)
    ensures w.interview == Some(Created(c))
  {
    CreateGood(c);
    CreationIsSound(NOTHING, c);
    steps, w := [Do(c)], EngineRuns.Next(NOTHING, Do(c));
    LeadsOne(NOTHING, Do(c));
  }

  /** A command that takes effect at once. */
  lemma TakesEffect(w: World, c: Command, t: Transition)
    requires Sound(w) && w.interview.Some? && !c.body.CreateInterview? && Handled(w.interview.value, c) == Ok(Moved(t))
    ensures var v := EngineRuns.Next(w, Do(c));
            Sound(v) && v.plan.None? && v.interview == Some(t.interview)
  {
    StepIsSound(w, Do(c));
  }

  // ---------- an interview whose questions are all skipped ----------

  lemma SkipHandled(i: Interview, c: Command)
    requires Good(i) && c.body.SkipQuestion? && c.interviewId == i.id && c.expectedVersion == i.version
    requires c.occurredAt == i.lastActivityAt && i.status == Active && i.phase == Some(AwaitingResponse)
    ensures 1 <= i.current <= |i.questions| && Handled(i, c).Ok? && Handled(i, c).value.Moved?
    ensures Handled(i, c).value.transition.interview == WithOutcome(i, i.questions[i.current - 1], Skipped, c.occurredAt)
  {
    CurrentFound(i);
  }

  lemma SkipIt(w: World, c: Command, n: int) returns (steps: seq<Step>, v: World)
    requires OpenAt(w, c, n, AwaitingResponse)
    ensures Leads(w, steps, v) && OpenAt(v, c, n, AwaitingContinue)
  {
    var i := w.interview.value;
    var skip := Now(c, i.version, SkipQuestion);
    SkipHandled(i, skip);
    TakesEffect(w, skip, Handled(i, skip).value.transition);
    LeadsOne(w, Do(skip));
    steps, v := [Do(skip)], EngineRuns.Next(w, Do(skip));
  }

  lemma ContinueHandled(i: Interview, c: Command)
    requires Good(i) && c.body.ContinueInterview? && c.interviewId == i.id && c.expectedVersion == i.version
    requires c.occurredAt == i.lastActivityAt && i.status == Active && i.phase == Some(AwaitingContinue)
    ensures 1 <= i.current <= |i.questions| && Handled(i, c).Ok? && Handled(i, c).value.Moved?
    ensures Handled(i, c).value.transition.interview == Continued(i, i.questions[i.current - 1], c.occurredAt)
  {
    CurrentFound(i);
  }

  /** An interview of this blueprint that awaits its complete report. */
  ghost predicate AwaitsComplete(w: World, c: Command) {
    && c.body.CreateInterview? && Sound(w) && w.interview.Some? && w.interview.value.status == ReportPending
    && w.interview.value.pendingReportKind == Some(Complete) && w.interview.value.blueprint == c.body.blueprint
  }

  lemma ContinueIt(w: World, c: Command, n: int) returns (steps: seq<Step>, v: World)
    requires OpenAt(w, c, n, AwaitingContinue)
    ensures Leads(w, steps, v)
    ensures if n == c.body.questionCount then AwaitsComplete(v, c) else OpenAt(v, c, n + 1, AwaitingResponse)
  {
    var i := w.interview.value;
    var next := Now(c, i.version, ContinueInterview);
    ContinueHandled(i, next);
    TakesEffect(w, next, Handled(i, next).value.transition);
    LeadsOne(w, Do(next));
    steps, v := [Do(next)], EngineRuns.Next(w, Do(next));
  }

  lemma {:induction false} SkipAll(w: World, c: Command, n: int) returns (steps: seq<Step>, v: World)
    requires OpenAt(w, c, n, AwaitingResponse) && n <= c.body.questionCount
    ensures Leads(w, steps, v) && AwaitsComplete(v, c)
    decreases c.body.questionCount - n
  {
    var skip, skipped := SkipIt(w, c, n);
    var next, continued := ContinueIt(skipped, c, n);
    LeadsOn(w, skip, skipped, next, continued);
    steps, v := skip + next, continued;
    if n < c.body.questionCount {
      var rest, last := SkipAll(continued, c, n + 1);
      LeadsOn(w, skip + next, continued, rest, last);
      steps, v := steps + rest, last;
    }
  }

  /** Every accepted blueprint can be skipped through until the complete report is awaited. */
  lemma SkippedThrough(c: Command) returns (steps: seq<Step>, v: World)
    requires c.body.CreateInterview? && Create(c).Ok?
    ensures Leads(NOTHING, steps, v) && AwaitsComplete(v, c)
  {
    var create, w := CreatedIsOpen(c);
    var rest: seq<Step>;
    assert Good(w.interview.value);
    rest, v := SkipAll(w, c, 1);
    LeadsOn(NOTHING, create, w, rest, v);
    steps := create + rest;
  }

  // ---------- its report is refused ----------

  lemma SelectedTwice(i: Interview)
    requires Good(i) && i.status == ReportPending && i.pendingReportKind == Some(Complete) && i.blueprint == TWO_VERSIONS
    ensures |i.blueprint.questions| == |i.questions| && !NoDup(SelectedIds(i))
  {
    SelectedNonempty(i);
    TwoVersionsAreValid();
    assert SelectedIds(i)[0] == SelectedIds(i)[1];
    if NoDup(SelectedIds(i)) {
      NoDupIndexed(SelectedIds(i), 0, 1);
      assert false;
    }
  }

  /** An interview about one question in two versions is accepted and runs to its end; its report is awaited,
      and every report that is built for it, however the analysis reads, is refused. */
  lemma TwoVersionsHaveNoReport(c: Command, catalogue: seq<Domain>) returns (steps: seq<Step>)
    requires c.expectedVersion == 0 && c.body.CreateInterview? && c.body == CreateInterview(c.body.accountId, 5, TWO_VERSIONS) && Catalogue(catalogue)
    ensures Run(NOTHING, steps).interview.Some? && Good(Run(NOTHING, steps).interview.value)
    ensures var i := Run(NOTHING, steps).interview.value;
            && i.status == ReportPending && i.blueprint == TWO_VERSIONS
            && forall analysis, leaks :: Draft(i, Complete, analysis, leaks, catalogue).Ok? ==>
                 CreatePersistence(i, Complete, analysis, leaks, catalogue) == Err(InvalidSnapshot)
  {
    var w: World;
    TwoVersionsAreValid();
    assert !IsSpace(PLAIN[0]);
    steps, w := SkippedThrough(c);
    SelectedTwice(w.interview.value);
    forall analysis, leaks | Draft(w.interview.value, Complete, analysis, leaks, catalogue).Ok?
      ensures CreatePersistence(w.interview.value, Complete, analysis, leaks, catalogue) == Err(InvalidSnapshot)
    {
      RefusedWhenTwice(w.interview.value, analysis, leaks, catalogue);
    }
  }

  lemma RefusedWhenTwice(i: Interview, analysis: ReportAnalysis, leaks: (seq<QuestionInput>, seq<string>) -> bool, catalogue: seq<Domain>)
    requires Good(i) && i.status == ReportPending && Catalogue(catalogue) && Draft(i, Complete, analysis, leaks, catalogue).Ok?
    requires |i.blueprint.questions| == |i.questions| && !NoDup(SelectedIds(i))
    ensures CreatePersistence(i, Complete, analysis, leaks, catalogue) == Err(InvalidSnapshot)
  {
    DraftExists(i, Complete, analysis, leaks, catalogue);
    DraftIsValidIffIdsDistinct(i, Draft(i, Complete, analysis, leaks, catalogue).value, analysis.perQuestion, catalogue);
  }

  // ---------- a clarification retried after its completion ----------

  /** The first question, with these clarifications, in this phase. */
  ghost predicate AtFirst(w: World, c: Command, notes: seq<ClarificationNote>, phase: Phase) {
    && Sound(w) && w.interview.Some? &&
    var i := w.interview.value;
    && i.id == c.interviewId && i.status == Active && i.lastActivityAt == c.occurredAt && i.version == 2
    && i.phase == Some(phase) && 1 <= i.current <= |i.questions| && i.questions[i.current - 1].clarifications == notes
  }

  /** The clarification with this plan is outstanding. */
  ghost predicate Clarifying(w: World, c: Command, notes: seq<ClarificationNote>, request: Command) {
    && AtFirst(w, c, notes, Processing) && w.plan.Some? && w.plan.value.command == request && w.plan.value.ClarificationPlan?
    && w.interview.value.pending.Some? && w.interview.value.pending.value.operationId == request.operationId
  }

  lemma RequestHandled(i: Interview, c: Command)
    requires Good(i) && c.body.RequestClarification? && c.interviewId == i.id && c.expectedVersion == i.version
    requires c.occurredAt == i.lastActivityAt && i.status == Active && i.phase == Some(AwaitingResponse)
    ensures Handled(i, c) == Ok(Planned(ClarificationPlan(i.id, c.operationId, i.current, c.occurredAt, Accepted(i, c, c.occurredAt), c)))
  {
  }

  lemma RequestIt(w: World, c: Command, request: Command) returns (steps: seq<Step>, v: World)
    requires OpenAt(w, c, 1, AwaitingResponse) && w.interview == Some(Created(c)) && request == Now(c, 1, RequestClarification)
    ensures steps == [Do(request)] && Leads(w, steps, v) && Clarifying(v, c, [], request)
  {
    var i := w.interview.value;
    RequestHandled(i, request);
    CurrentFound(i);
    StepIsSound(w, Do(request));
    LeadsOne(w, Do(request));
    steps, v := [Do(request)], EngineRuns.Next(w, Do(request));
  }

  lemma CompletionHandled(i: Interview, p: Plan, c: Completion)
    requires Good(i) && PlanFits(i, p) && p.ClarificationPlan? && c.body.RecordClarification? && NonBlank(c.body.text)
    requires c.interviewId == i.id && c.expectedVersion == i.version && c.operationId == p.operationId && c.occurredAt == i.lastActivityAt
    ensures 1 <= i.current <= |i.questions| && CompleteOperation(i, p, c).Ok?
    ensures var q := Clarified(i.questions[i.current - 1], p, c);
            CompleteOperation(i, p, c).value.interview == Finished(i, q, AwaitingResponse) && Replace(i.questions, q) == i.questions[i.current - 1 := q]
  {
    PlanAccepted(i, p);
    CurrentFound(i);
    ReplaceAt(i, Clarified(i.questions[i.current - 1], p, c));
  }

  lemma CompleteIt(w: World, c: Command, request: Command, completion: Completion) returns (steps: seq<Step>, v: World)
    requires Clarifying(w, c, [], request) && request == Now(c, 1, RequestClarification)
    requires completion.body.RecordClarification? && NonBlank(completion.body.text)
    requires completion == Completion(c.interviewId, c.operationId, 2, c.occurredAt, completion.body)
    ensures steps == [Finish(completion)] && Leads(w, steps, v) && v.plan.None?
    ensures AtFirst(v, c, [ClarificationNote(completion.body.messageId, completion.body.text, c.occurredAt, c.occurredAt)], AwaitingResponse)
  {
    CompletionHandled(w.interview.value, w.plan.value, completion);
    StepIsSound(w, Finish(completion));
    LeadsOne(w, Finish(completion));
    steps, v := [Finish(completion)], EngineRuns.Next(w, Finish(completion));
  }

  lemma RetryHandled(i: Interview, c: Command)
    requires Good(i) && c.body.RequestClarification? && c.interviewId == i.id && i.version == c.expectedVersion + 1
    requires i.status == Active && i.phase == Some(AwaitingResponse)
    ensures var at := i.lastActivityAt;
            RetryOperation(i, c, at) == Ok(ClarificationPlan(i.id, c.operationId, i.current, at, WithPending(i, c, at), c))
  {
  }

  lemma RetryIt(w: World, c: Command, notes: seq<ClarificationNote>, request: Command) returns (steps: seq<Step>, v: World)
    requires AtFirst(w, c, notes, AwaitingResponse) && w.plan.None? && request == Now(c, 1, RequestClarification)
    ensures steps == [RetryPending(request, c.occurredAt)] && Leads(w, steps, v) && Clarifying(v, c, notes, request)
  {
    var retry := RetryPending(request, c.occurredAt);
    RetryHandled(w.interview.value, request);
    StepIsSound(w, retry);
    LeadsOne(w, retry);
    steps, v := [retry], EngineRuns.Next(w, retry);
  }

  lemma LeadsThrough(w: World, first: seq<Step>, v: World, second: seq<Step>, u: World, third: seq<Step>, t: World, fourth: seq<Step>, z: World)
    requires Leads(w, first, v) && Leads(v, second, u) && Leads(u, third, t) && Leads(t, fourth, z)
    ensures Leads(w, first + second + third + fourth, z)
  {
    LeadsOn(w, first, v, second, u);
    LeadsOn(w, first + second, u, third, t);
    LeadsOn(w, first + second + third, t, fourth, z);
  }

  /** A clarification is requested and recorded, and then its command is retried and accepted: the operation is
      pending again, with the note already there. */
  lemma ClarificationIsRetried(c: Command, messageId: Id, text: string) returns (steps: seq<Step>, w: World)
    requires c.body.CreateInterview? && Create(c).Ok? && NonBlank(text)
    ensures var request := Now(c, 1, RequestClarification);
            && steps == [Do(c)] + [Do(request)]
                        + [Finish(Completion(c.interviewId, c.operationId, 2, c.occurredAt, RecordClarification(messageId, text)))]
                        + [RetryPending(request, c.occurredAt)]
            && Leads(NOTHING, steps, w)
            && Clarifying(w, c, [ClarificationNote(messageId, text, c.occurredAt, c.occurredAt)], request)
  {
    var request := Now(c, 1, RequestClarification);
    var completion := Completion(c.interviewId, c.operationId, 2, c.occurredAt, RecordClarification(messageId, text));
    var first, w1 := CreatedIsOpen(c);
    var second, w2 := RequestIt(w1, c, request);
    var third, w3 := CompleteIt(w2, c, request, completion);
    var fourth, w4 := RetryIt(w3, c, [ClarificationNote(messageId, text, c.occurredAt, c.occurredAt)], request);
    LeadsThrough(NOTHING, first, w1, second, w2, third, w3, fourth, w4);
    steps, w := first + second + third + fourth, w4;
  }
}
