/** The JavaScript build of the server (src/automation.js). Its `transitionIssue` is
    step for step the one of src/automation.ts, so it is the same engine run with this
    variant's classifier, which has no to-do rule. */
module AutomationJs {
  import opened Text
  import opened Vocabulary
  import opened Automation

  /** `getDesiredCategoryKey` of src/automation.js: "done" first, then the in-progress
      keywords; to-do targets are not classified. */
  function DesiredCategoryKey(targetName: string): (r: Option<Category>)
    ensures r == FirstMatchingRule(NormalizeLower(Some(targetName)), ServerRulesJs)
  {
    var targetLower := NormalizeLower(Some(targetName));
    MentionsOneOf(targetLower, DoneKeyword, DoneKeyword, DoneKeyword);
    MentionsOneOf(targetLower, InProgressKeyword, InProgressCompactKeyword, IndeterminateKeyword);
    FirstOfTwoRules(targetLower, DoneRule, InProgressRule);
    if Contains(targetLower, DoneKeyword) then Some(Done)
    else if Contains(targetLower, InProgressKeyword) || Contains(targetLower, InProgressCompactKeyword)
         || Contains(targetLower, IndeterminateKeyword) then Some(Indeterminate)
    else None
  }

  /** The two classifiers agree except where src/automation.ts answers "new": there
      the JavaScript one answers "indeterminate" if an in-progress keyword also occurs,
      and nothing otherwise. It never answers "new". */
  lemma ClassifierDiffersOnlyOnNew(targetName: string)
    ensures Automation.DesiredCategoryKey(targetName) != Some(New) ==>
      DesiredCategoryKey(targetName) == Automation.DesiredCategoryKey(targetName)
    ensures Automation.DesiredCategoryKey(targetName) == Some(New) ==>
      DesiredCategoryKey(targetName) in {None, Some(Indeterminate)}
    ensures DesiredCategoryKey(targetName) != Some(New)
  {
    var lower := NormalizeLower(Some(targetName));
    FirstOfThreeRules(lower, DoneRule, NewRule, InProgressRule);
    FirstOfTwoRules(lower, DoneRule, InProgressRule);
  }

  /** "To Do" is not classified by src/automation.js, so the to-do move relies on
      transition names alone. */
  lemma TodoTargetIsUnclassified()
    ensures DesiredCategoryKey(TargetTodo) == None
  {
    var lower := NormalizeLower(Some(TargetTodo));
    assert lower == "to do";
    TodoTargetKeywords();
    NotContainsByFirstChar(lower, InProgressKeyword);
    NotContainsByFirstChar(lower, InProgressCompactKeyword);
    NotContainsByFirstChar(lower, IndeterminateKeyword);
  }

  /** The `transitionIssue` resolver of src/automation.js: both arguments are
      required; its extra catch never fires, because `transitionIssue` itself turns
      every failure into an answer. */
  method ResolveTransitionIssue(site: JiraSite, issueKey: Option<string>, targetName: Option<string>,
                                isAuto: Option<bool>, replies: Replies) returns (response: TransitionResponse)
    modifies site
    ensures !Truthy(issueKey) || !Truthy(targetName) ==>
      response == Failed("issueKey and targetName are required") && site.Snapshot() == old(site.Snapshot())
      && site.requests == old(site.requests)
    ensures Truthy(issueKey) && Truthy(targetName) ==>
      var run := Reconcile(DesiredCategoryKey, old(site.Snapshot()), old(site.requests), issueKey.value, targetName.value,
                           isAuto == Some(true), replies);
      response == run.response && site.Snapshot() == run.site && site.requests == run.requests
  {
    if !Truthy(issueKey) || !Truthy(targetName) {
      return Failed("issueKey and targetName are required");
    }
    response := site.TransitionIssue(DesiredCategoryKey, issueKey.value, targetName.value, isAuto == Some(true), replies);
  }
}
