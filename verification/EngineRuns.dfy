/** Runs of the engine: an interview, its outstanding plan and its event log under any steps. */
module EngineRuns {
  import opened Basics
  import opened InterviewModel
  import opened Engine
  import opened EngineInvariant
  import opened EngineLog

  /** `accepted` counts the commands accepted so far, the creation included. */
  datatype World = World(interview: Option<Interview>, plan: Option<Plan>, log: seq<Event>, accepted: nat)

  const NOTHING: World := World(None, None, [], 0)

  datatype Step =
    | Do(command: Command)
    | Finish(completion: Completion)
    | CancelPending
    | RetryPending(command: Command, acceptedAt: int)
    | RefreshPending(operationId: Id, acceptedAt: int)
    | RefreshReportRetry(acceptedAt: int)

  ghost function AfterCommand(w: World, c: Command): World {
    match Handle(w.interview, c)
    case Err(_) => w
    case Ok(Moved(t)) => World(Some(t.interview), None, w.log + t.events, w.accepted + 1)
    case Ok(Planned(p)) => World(Some(p.interview), Some(p), w.log, w.accepted + 1)
  }

  function AfterCompletion(w: World, i: Interview, p: Plan, c: Completion): World {
    match CompleteOperation(i, p, c)
    case Err(_) => w
    case Ok(t) => w.(interview := Some(t.interview), plan := None, log := w.log + t.events)
  }

  function AfterCancel(w: World, i: Interview, p: Plan): World {
    match CancelOperation(i, p)
    case Err(_) => w
    case Ok(j) => w.(interview := Some(j), plan := None)
  }

  function AfterRetry(w: World, i: Interview, c: Command, at: int): World
    requires IsPlannable(c.body)
  {
    match RetryOperation(i, c, at)
    case Err(_) => w
    case Ok(p) => w.(interview := Some(p.interview), plan := Some(p))
  }

  /** Refreshing changes the stored interview; the plan is read back from it. */
  function AfterRefresh(w: World, i: Interview, p: Plan, operationId: Id, at: int): World {
    match RefreshOperation(i, operationId, at)
    case Err(_) => w
    case Ok(j) => w.(interview := Some(j), plan := Some(Replan(p, j)))
  }

  function AfterReportRetry(w: World, i: Interview, at: int): World {
    match RefreshReport(i, at)
    case Err(_) => w
    case Ok(j) => w.(interview := Some(j))
  }

  /** One step; a step that fails changes nothing. */
  ghost function Next(w: World, s: Step): World {
    match s
    case Do(c) => AfterCommand(w, c)
    case Finish(c) => if w.interview.None? || w.plan.None? then w else AfterCompletion(w, w.interview.value, w.plan.value, c)
    case CancelPending => if w.interview.None? || w.plan.None? then w else AfterCancel(w, w.interview.value, w.plan.value)
    case RetryPending(c, at) => if w.interview.None? || !IsPlannable(c.body) then w else AfterRetry(w, w.interview.value, c, at)
    case RefreshPending(id, at) =>
      if w.interview.None? || w.plan.None? then w else AfterRefresh(w, w.interview.value, w.plan.value, id, at)
    case RefreshReportRetry(at) => if w.interview.None? then w else AfterReportRetry(w, w.interview.value, at)
  }

  ghost function Run(w: World, steps: seq<Step>): World
    decreases |steps|
  {
    if steps == [] then w else Run(Next(w, steps[0]), steps[1..])
  }

  /** The invariant of every run: a good interview with a fitting plan, a log that rebuilds it, and one
      version per accepted command. */
  ghost predicate Sound(w: World) {
    match w.interview
    case None => w == NOTHING
    case Some(i) =>
      Good(i) && PlanOk(i, w.plan) && Rebuild(w.log) == Some(ViewOf(i)) && i.version == w.accepted
  }

  lemma LogGrows(i: Interview, log: seq<Event>, t: Transition)
    requires Rebuild(log) == Some(ViewOf(i)) && Explains(i, t)
    ensures Rebuild(log + t.events) == Some(ViewOf(t.interview))
  {
    FoldAppend(Folded(None, 0), log, t.events);
    assert Fold(Folded(None, 0), log) == Folded(Some(ViewOf(i)), Fold(Folded(None, 0), log).requestedAt);
  }

  lemma CreationIsSound(w: World, c: Command)
    requires w == NOTHING && c.body.CreateInterview?
    ensures Sound(AfterCommand(w, c))
  {
    if Create(c).Ok? {
      CreateGood(c);
      CreateExplains(c);
      assert w.log + Create(c).value.events == Create(c).value.events;
    }
  }

  lemma HandlingIsSound(w: World, i: Interview, c: Command)
    requires Sound(w) && w.interview == Some(i) && !c.body.CreateInterview?
    ensures Sound(AfterCommand(w, c))
  {
    HandledGood(i, c);
    HandledExplains(i, c);
    if Handled(i, c).Ok? {
      match Handled(i, c).value {
        case Moved(t) => LogGrows(i, w.log, t);
        case Planned(p) =>
      }
    }
  }

  lemma CommandIsSound(w: World, c: Command)
    requires Sound(w)
    ensures Sound(AfterCommand(w, c))
  {
    if w.interview.None? {
      if c.body.CreateInterview? {
        CreationIsSound(w, c);
      }
    } else if !c.body.CreateInterview? {
      HandlingIsSound(w, w.interview.value, c);
    }
  }

  lemma CompletionIsSound(w: World, i: Interview, p: Plan, c: Completion)
    requires Sound(w) && w.interview == Some(i) && w.plan == Some(p)
    ensures Sound(AfterCompletion(w, i, p, c))
  {
    if CompleteOperation(i, p, c).Ok? {
      CompleteGood(i, p, c);
      CompleteExplains(i, p, c);
      LogGrows(i, w.log, CompleteOperation(i, p, c).value);
    }
  }

  lemma CancelIsSound(w: World, i: Interview, p: Plan)
    requires Sound(w) && w.interview == Some(i) && w.plan == Some(p)
    ensures Sound(AfterCancel(w, i, p))
  {
    CancelGood(i, p);
  }

  lemma RetryIsSound(w: World, i: Interview, c: Command, at: int)
    requires Sound(w) && w.interview == Some(i) && IsPlannable(c.body)
    ensures Sound(AfterRetry(w, i, c, at))
  {
    RetryGood(i, c, at);
  }

  lemma RefreshIsSound(w: World, i: Interview, p: Plan, id: Id, at: int)
    requires Sound(w) && w.interview == Some(i) && w.plan == Some(p)
    ensures Sound(AfterRefresh(w, i, p, id, at))
  {
    RefreshGood(i, p, id, at);
  }

  lemma ReportRetryIsSound(w: World, i: Interview, at: int)
    requires Sound(w) && w.interview == Some(i)
    ensures Sound(AfterReportRetry(w, i, at))
  {
    RefreshReportGood(i, at);
  }

  lemma OutstandingIsSound(w: World, i: Interview, p: Plan, s: Step)
    requires Sound(w) && w.interview == Some(i) && w.plan == Some(p) && (s.Finish? || s.CancelPending? || s.RefreshPending?)
    ensures Sound(Next(w, s))
  {
    match s {
      case Finish(c) => CompletionIsSound(w, i, p, c);
      case CancelPending => CancelIsSound(w, i, p);
      case RefreshPending(id, at) => RefreshIsSound(w, i, p, id, at);
    }
  }

  lemma StepIsSound(w: World, s: Step)
    requires Sound(w)
    ensures Sound(Next(w, s))
  {
    match s {
      case Do(c) => CommandIsSound(w, c);
      case RetryPending(c, at) => if w.interview.Some? && IsPlannable(c.body) { RetryIsSound(w, w.interview.value, c, at); }
      case RefreshReportRetry(at) => if w.interview.Some? { ReportRetryIsSound(w, w.interview.value, at); }
      case _ => if w.interview.Some? && w.plan.Some? { OutstandingIsSound(w, w.interview.value, w.plan.value, s); }
    }
  }

  lemma {:induction false} RunIsSound(w: World, steps: seq<Step>)
    requires Sound(w)
    ensures Sound(Run(w, steps))
    decreases |steps|
  {
    if steps != [] {
      StepIsSound(w, steps[0]);
      RunIsSound(Next(w, steps[0]), steps[1..]);
    }
  }

  /** Over every run the events rebuild the interview, and the version counts the accepted commands. */
  lemma EveryRunIsSound(steps: seq<Step>)
    ensures Sound(Run(NOTHING, steps))
  {
    RunIsSound(NOTHING, steps);
  }

  // ---------- what never changes ----------

  /** The interview keeps its identity and blueprint, its frozen questions, and never goes back. */
  ghost predicate Grows(i: Interview, j: Interview) {
    && j.id == i.id && j.accountId == i.accountId && j.createdAt == i.createdAt
    && j.blueprint == i.blueprint && j.questionCount == i.questionCount
    && |j.questions| == |i.questions| && i.current <= j.current
    && (forall p :: 0 <= p < |i.questions| && i.questions[p].frozen ==> j.questions[p] == i.questions[p])
    && (i.status != Active ==> j.questions == i.questions && j.status != Active)
  }

  lemma SameQuestionsGrow(i: Interview, j: Interview)
    requires j.id == i.id && j.accountId == i.accountId && j.createdAt == i.createdAt
    requires j.blueprint == i.blueprint && j.questionCount == i.questionCount && j.questions == i.questions && j.current == i.current
    requires i.status != Active ==> j.status != Active
    ensures Grows(i, j)
  {
  }

  lemma ReplacedGrows(i: Interview, j: Interview, q: QuestionState)
    requires Good(i) && i.status == Active && q.position == i.current
    requires j.id == i.id && j.accountId == i.accountId && j.createdAt == i.createdAt
    requires j.blueprint == i.blueprint && j.questionCount == i.questionCount && i.current <= j.current
    requires j.questions == Replace(i.questions, q)
    ensures Grows(i, j)
  {
    ReplaceAt(i, q);
    NotFrozen(i);
  }

  ghost predicate ResultGrows(i: Interview, r: CommandResult) {
    match r
    case Moved(t) => Grows(i, t.interview)
    case Planned(p) => Grows(i, p.interview)
  }

  lemma PlanGrows(i: Interview, c: Command)
    requires IsPlannable(c.body)
    ensures PlanCommand(i, c).Ok? ==> Grows(i, PlanCommand(i, c).value.interview)
  {
    SameQuestionsGrow(i, Accepted(i, c, c.occurredAt));
  }

  lemma UnevaluatedGrows(i: Interview, c: Command, outcome: Outcome)
    requires Good(i)
    ensures RecordUnevaluated(i, c, outcome).Ok? ==> Grows(i, RecordUnevaluated(i, c, outcome).value.interview)
  {
    if RecordUnevaluated(i, c, outcome).Ok? {
      NotFrozen(i);
      CurrentFound(i);
      ReplacedGrows(i, RecordUnevaluated(i, c, outcome).value.interview,
                    i.questions[i.current - 1].(evaluation := None, outcome := Some(outcome)));
    }
  }

  lemma ContinueGrows(i: Interview, c: Command)
    requires Good(i)
    ensures Continue(i, c).Ok? ==> Grows(i, Continue(i, c).value.interview)
  {
    if Continue(i, c).Ok? {
      NotFrozen(i);
      CurrentFound(i);
      ReplacedGrows(i, Continue(i, c).value.interview, i.questions[i.current - 1].(frozen := true));
    }
  }

  lemma DispatchGrows(i: Interview, c: Command)
    requires Good(i) && !c.body.CreateInterview?
    ensures Dispatch(i, c).Ok? ==> ResultGrows(i, Dispatch(i, c).value)
  {
    match c.body {
      case SubmitAnswer(_, _) => PlanGrows(i, c);
      case SubmitSupplement(_, _) => PlanGrows(i, c);
      case RequestClarification => PlanGrows(i, c);
      case MarkUnknown => UnevaluatedGrows(i, c, Unknown);
      case SkipQuestion => UnevaluatedGrows(i, c, Skipped);
      case ContinueInterview => ContinueGrows(i, c);
      case EndEarly => SameQuestionsGrow(i, EndedEarly(i, c.occurredAt));
      case AbandonInterview => SameQuestionsGrow(i, Abandon(i, c, ByUser).interview);
      case ExpireInterview => SameQuestionsGrow(i, Abandon(i, c, ByExpiry).interview);
      case RecordReport(id, kind) => SameQuestionsGrow(i, Reported(i, id, kind));
    }
  }

  lemma HandledGrows(i: Interview, c: Command)
    requires Good(i) && !c.body.CreateInterview?
    ensures Handled(i, c).Ok? ==> ResultGrows(i, Handled(i, c).value)
  {
    DispatchGrows(i, c);
    SameQuestionsGrow(i, Abandon(i, c, ByExpiry).interview);
  }

  lemma FinishedGrows(i: Interview, q: QuestionState, phase: Phase)
    requires Good(i) && i.status == Active && q.position == i.current
    ensures Grows(i, Finished(i, q, phase))
  {
    ReplacedGrows(i, Finished(i, q, phase), q);
  }

  lemma CompleteGrows(i: Interview, p: Plan, c: Completion)
    requires Good(i)
    ensures CompleteOperation(i, p, c).Ok? ==> Grows(i, CompleteOperation(i, p, c).value.interview)
  {
    if CompleteOperation(i, p, c).Ok? {
      NotFrozen(i);
      CurrentFound(i);
      if Expired(i, c.occurredAt) {
        SameQuestionsGrow(i, Closed(i));
      } else {
        var q, phase := CompletedAs(i, p, c, i.questions[i.current - 1]);
        FinishedGrows(i, q, phase);
      }
    }
  }

  ghost predicate WorldGrows(w: World, next: World) {
    w.interview.Some? && next.interview.Some? && Grows(w.interview.value, next.interview.value) && w.log <= next.log
  }

  lemma CommandGrows(w: World, c: Command)
    requires Sound(w) && w.interview.Some?
    ensures WorldGrows(w, AfterCommand(w, c))
  {
    SameQuestionsGrow(w.interview.value, w.interview.value);
    if !c.body.CreateInterview? {
      HandledGrows(w.interview.value, c);
    }
  }

  lemma CancelGrows(w: World, i: Interview, p: Plan)
    requires Sound(w) && w.interview == Some(i) && w.plan == Some(p)
    ensures WorldGrows(w, AfterCancel(w, i, p))
  {
    CancelGood(i, p);
    SameQuestionsGrow(i, CancelOperation(i, p).value);
  }

  lemma RetryGrows(w: World, i: Interview, c: Command, at: int)
    requires Sound(w) && w.interview == Some(i) && IsPlannable(c.body)
    ensures WorldGrows(w, AfterRetry(w, i, c, at))
  {
    SameQuestionsGrow(i, i);
    SameQuestionsGrow(i, WithPending(i, c, at));
  }

  lemma RefreshGrows(w: World, i: Interview, p: Plan, id: Id, at: int)
    requires Sound(w) && w.interview == Some(i) && w.plan == Some(p)
    ensures WorldGrows(w, AfterRefresh(w, i, p, id, at))
  {
    SameQuestionsGrow(i, i);
    if i.pending.Some? {
      SameQuestionsGrow(i, Refreshed(i, i.pending.value, at));
    }
  }

  lemma ReportRetryGrows(w: World, i: Interview, at: int)
    requires Sound(w) && w.interview == Some(i)
    ensures WorldGrows(w, AfterReportRetry(w, i, at))
  {
    SameQuestionsGrow(i, i);
    SameQuestionsGrow(i, i.(lastActivityAt := at));
  }

  lemma CompletionGrows(w: World, i: Interview, p: Plan, c: Completion)
    requires Sound(w) && w.interview == Some(i) && w.plan == Some(p)
    ensures WorldGrows(w, AfterCompletion(w, i, p, c))
  {
    SameQuestionsGrow(i, i);
    CompleteGrows(i, p, c);
  }

  lemma StepGrows(w: World, s: Step)
    requires Sound(w) && w.interview.Some?
    ensures WorldGrows(w, Next(w, s))
  {
    var i := w.interview.value;
    SameQuestionsGrow(i, i);
    match s {
      case Do(c) => CommandGrows(w, c);
      case Finish(c) => if w.plan.Some? { CompletionGrows(w, i, w.plan.value, c); }
      case CancelPending => if w.plan.Some? { CancelGrows(w, i, w.plan.value); }
      case RetryPending(c, at) => if IsPlannable(c.body) { RetryGrows(w, i, c, at); }
      case RefreshPending(id, at) => if w.plan.Some? { RefreshGrows(w, i, w.plan.value, id, at); }
      case RefreshReportRetry(at) => ReportRetryGrows(w, i, at);
    }
  }

  /** Over any run from a sound world: frozen questions, the blueprint and the identity never change, the
      current question never goes back, and the log only grows. */
  lemma {:induction false} RunGrows(w: World, steps: seq<Step>)
    requires Sound(w) && w.interview.Some?
    ensures WorldGrows(w, Run(w, steps))
    decreases |steps|
  {
    if steps == [] {
      SameQuestionsGrow(w.interview.value, w.interview.value);
    } else {
      StepIsSound(w, steps[0]);
      StepGrows(w, steps[0]);
      RunGrows(Next(w, steps[0]), steps[1..]);
    }
  }
}
