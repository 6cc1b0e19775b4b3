/** The loops that check a blueprint when an interview is created
    (packages/domain/src/engine.ts, `validateAndFreezeBlueprint` and `validateQuestionSnapshot`). */
module BlueprintChecks {
  import opened Basics
  import opened Sequences
  import opened TextOrder
  import opened InterviewModel
  import opened Coverage
  import opened Scoring
  import opened Engine

  /** One more element in a prefix. */
  lemma PrefixStep<T>(s: seq<T>, k: nat)
    requires k < |s|
    ensures ToSet(s[..k + 1]) == ToSet(s[..k]) + {s[k]}
    ensures NoDup(s[..k + 1]) <==> NoDup(s[..k]) && s[k] !in ToSet(s[..k])
    ensures NoDup(s) ==> NoDup(s[..k + 1])
  {
    assert s[..k + 1] == s[..k] + [s[k]];
    NoDupSnoc(s[..k], s[k]);
    if NoDup(s) {
      NoDupPrefix(s, k + 1);
    }
  }

  /** Goals: distinct ids, nonblank texts, at least one clarification goal. */
  method ValidateGoals(goals: seq<FollowUpGoal>) returns (ok: bool)
    ensures ok <==> NoDup(GoalIds(goals)) && (forall g :: g in goals ==> NonBlank(g.goal))
                      && exists g :: g in goals && g.kind == Clarification
  {
    ghost var all := GoalIds(goals);
    var ids: set<Id> := {};
    var hasClarificationGoal := false;
    for k := 0 to |goals|
      invariant ids == ToSet(all[..k]) && NoDup(all[..k])
      invariant forall i :: 0 <= i < k ==> NonBlank(goals[i].goal)
      invariant hasClarificationGoal <==> exists i :: 0 <= i < k && goals[i].kind == Clarification
    {
      var goal := goals[k];
      PrefixStep(all, k);
      if goal.id in ids {
        return false;
      }
      ids := ids + {goal.id};
      if !NonBlank(goal.goal) {
        return false;
      }
      hasClarificationGoal := hasClarificationGoal || goal.kind == Clarification;
    }
    assert all[..|goals|] == all;
    return hasClarificationGoal;
  }

  method ValidateQuestionSnapshot(question: Question) returns (ok: bool)
    ensures ok <==> ValidSnapshot(question)
  {
    if question.questionVersion < 1 || !NonBlank(question.sourceWording) || !NonBlank(question.displayedWording)
       || !NonBlank(question.knowledgeExplanation) {
      return false;
    }
    for k := 0 to |question.rubric|
      invariant forall i :: 0 <= i < k ==> NonBlank(question.rubric[i].description)
    {
      if !NonBlank(question.rubric[k].description) {
        return false;
      }
    }
    var rubric := ValidateRubric(question.rubric);
    if rubric.Err? {
      return false;
    }
    ok := ValidateGoals(question.followUpGoals);
  }

  /** The items in order, each valid, no question twice at the same version. */
  method ValidateItems(items: seq<BlueprintItem>) returns (ok: bool)
    ensures ok <==> ValidItems(items) && NoDup(QuestionKeys(items))
  {
    ghost var all := QuestionKeys(items);
    var keys: set<(Id, int)> := {};
    for k := 0 to |items|
      invariant keys == ToSet(all[..k]) && NoDup(all[..k])
      invariant forall i {:trigger ItemFits(items, i)} :: 0 <= i < k ==> ItemFits(items, i)
    {
      assert ItemFits(items, k) <==> items[k].position == k + 1 && ValidSnapshot(items[k].question);
      if items[k].position != k + 1 {
        return false;
      }
      var valid := ValidateQuestionSnapshot(items[k].question);
      if !valid {
        return false;
      }
      PrefixStep(all, k);
      var key := KeyOf(items[k]);
      if key in keys {
        return false;
      }
      keys := keys + {key};
    }
    assert all[..|items|] == all;
    return true;
  }

  /** The whole check at creation: `None` accepts, and acceptance means a valid blueprint with a seed. */
  method ValidateAndFreezeBlueprint(blueprint: Blueprint, count: int) returns (fault: Option<Fault>)
    requires SupportedCount(count)
    ensures fault.None? <==> NonBlank(blueprint.selectionSeed) && ValidBlueprint(blueprint, count)
    ensures fault == Some(EmptyText) <==> !NonBlank(blueprint.selectionSeed)
    ensures fault.Some? ==> fault.value.EmptyText? || fault.value.InvalidBlueprint?
  {
    if !NonBlank(blueprint.selectionSeed) {
      return Some(EmptyText);
    }
    if |blueprint.questions| != count {
      return Some(InvalidBlueprint);
    }
    var valid := ValidateItems(blueprint.questions);
    if !valid {
      return Some(InvalidBlueprint);
    }
    ValidatorIsCoverage(count, SnapshotsOf(blueprint.questions), blueprint.unassessedDomain);
    var problem := ValidateCoverage(count, SnapshotsOf(blueprint.questions), blueprint.unassessedDomain);
    return if problem.Some? then Some(InvalidBlueprint) else None;
  }
}
