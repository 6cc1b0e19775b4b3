/** The value types of the interview domain: questions, blueprints, answers, evaluations, outcomes. */
module InterviewModel {
  import opened Basics

  /** An identifier of a question, message, operation, account and so on. */
  datatype Id = Id(text: string)

  datatype Domain =
    | GoLanguage
    | ConcurrencyRuntimePerformance
    | HttpRpcApi
    | DatabaseStorage
    | CacheMessagingDistributed
    | TestingObservabilityEngineering

  const DOMAINS: seq<Domain> := [
    GoLanguage, ConcurrencyRuntimePerformance, HttpRpcApi,
    DatabaseStorage, CacheMessagingDistributed, TestingObservabilityEngineering
  ]

  function DomainName(domain: Domain): string {
    match domain
    case GoLanguage => "go_language"
    case ConcurrencyRuntimePerformance => "concurrency_runtime_performance"
    case HttpRpcApi => "http_rpc_api"
    case DatabaseStorage => "database_storage"
    case CacheMessagingDistributed => "cache_messaging_distributed"
    case TestingObservabilityEngineering => "testing_observability_engineering"
  }

  predicate SupportedCount(n: int) {
    n == 5 || n == 10 || n == 15
  }

  datatype RubricItem = RubricItem(id: Id, description: string, weight: int)

  datatype FollowUpKind = Clarification | Depth

  datatype FollowUpPurpose = AnswerClarification | IrrelevantResponseClarification | DepthPurpose

  datatype FollowUpGoal = FollowUpGoal(id: Id, kind: FollowUpKind, goal: string)

  datatype Question = Question(
    questionId: Id,
    questionVersion: int,
    domain: Domain,
    sourceWording: string,
    displayedWording: string,
    rubric: seq<RubricItem>,
    followUpGoals: seq<FollowUpGoal>,
    knowledgeExplanation: string)

  datatype BlueprintItem = BlueprintItem(position: int, question: Question)

  datatype Blueprint = Blueprint(
    selectionSeed: string,
    unassessedDomain: Option<Domain>,
    questions: seq<BlueprintItem>)

  datatype MaterialKind = MainAnswer | FollowUpAnswer | Supplement

  datatype AnswerMaterial = AnswerMaterial(id: Id, kind: MaterialKind, text: string, submittedAt: int)

  datatype Classification = Relevant | Ambiguous | Irrelevant

  datatype Award = Award(
    rubricItemId: Id,
    evidenceMaterialIds: seq<Id>,
    awardedPoints: int,
    missingOrIncorrectPoints: seq<string>)

  datatype EvaluationInput = EvaluationInput(id: Id, classification: Classification, rubricItems: seq<Award>)

  /** The five question outcomes; only a scored one carries points. */
  datatype Outcome = Scored(points: int) | Incorrect | Unknown | Skipped | OffTopic {
    function Score(): int {
      if Scored? then points else 0
    }
  }

  datatype QuestionEvaluation = QuestionEvaluation(
    id: Id,
    classification: Classification,
    rubricItems: seq<Award>,
    outcome: Outcome)

  datatype ReportKind = Complete | Incomplete
}
