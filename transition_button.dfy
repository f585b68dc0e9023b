/** The panel's TransitionButton: whether the "Move to …" button is shown for a
    suggested target, and what it shows. The click handler is the hook's
    `handleMoveToDone` (module IssueAutomationHook). */
module TransitionButton {
  import opened Text
  import opened Vocabulary
  import opened Helpers
  import opened PanelUtils

  /** What the rendered button shows. */
  datatype ButtonView = ButtonView(disabled: bool, caption: string)

  const MovingLabel := "Moving..."
  const MoveToPrefix := "Move to "

  /** `alreadyInTargetCategory`: the target classifies, and the current status,
      normalised, is that category's key. */
  predicate AlreadyInTargetCategory(suggestedTarget: Option<string>, currentIssueStatus: Option<string>)
  {
    var category := TargetCategory(suggestedTarget);
    category.Some? && NormalizeStatus(currentIssueStatus) == NormalizeStatus(Some(category.value.Key()))
  }

  /** The button, or None when it is not rendered: hidden without a target, when the
      current status already is the target (ignoring case and padding), or when it
      already is the target's category key; otherwise disabled exactly while a
      transition runs, captioned "Moving..." then and "Move to <target>" otherwise. */
  function Button(suggestedTarget: Option<string>, currentIssueStatus: Option<string>, transitionLoading: bool)
    : (r: Option<ButtonView>)
    ensures r.None? <==>
      !Truthy(suggestedTarget) || CompareStatuses(currentIssueStatus, suggestedTarget)
      || AlreadyInTargetCategory(suggestedTarget, currentIssueStatus)
    ensures r.Some? ==> r.value.disabled == transitionLoading
    ensures r.Some? && transitionLoading ==> r.value.caption == MovingLabel
    ensures r.Some? && !transitionLoading ==>
      IsPrefixOf(MoveToPrefix, r.value.caption) && r.value.caption[|MoveToPrefix|..] == suggestedTarget.value
  {
    if !Truthy(suggestedTarget) || CompareStatuses(currentIssueStatus, suggestedTarget)
       || AlreadyInTargetCategory(suggestedTarget, currentIssueStatus)
    then None
    else Some(ButtonView(transitionLoading, if transitionLoading then MovingLabel else MoveToPrefix + suggestedTarget.value))
  }

  /** A category key is already normalised. */
  lemma CategoryKeysAreNormal(c: Category)
    ensures NormalizeStatus(Some(c.Key())) == c.Key()
  {
    match c
    case New => NormalizedLiteral("new", "new");
    case Indeterminate => NormalizedLiteral("indeterminate", "indeterminate");
    case Done => NormalizedLiteral("done", "done");
  }

  /** A running transition disables the button but never hides it. */
  lemma LoadingOnlyDisables(suggestedTarget: Option<string>, currentIssueStatus: Option<string>)
    ensures Button(suggestedTarget, currentIssueStatus, true).Some?
        <==> Button(suggestedTarget, currentIssueStatus, false).Some?
    ensures Button(suggestedTarget, currentIssueStatus, true).Some? ==>
      Button(suggestedTarget, currentIssueStatus, true).value.disabled
      && !Button(suggestedTarget, currentIssueStatus, false).value.disabled
  {
  }

  /** A target whose category key differs from the normalised current status is not
      already in its category. */
  lemma NotInTargetCategory(suggestedTarget: Option<string>, currentIssueStatus: Option<string>)
    requires TargetCategory(suggestedTarget).Some?
    requires TargetCategory(suggestedTarget).value.Key() != NormalizeStatus(currentIssueStatus)
    ensures !AlreadyInTargetCategory(suggestedTarget, currentIssueStatus)
  {
    CategoryKeysAreNormal(TargetCategory(suggestedTarget).value);
  }

  /** A target whose category is not the current status is hidden only by name. */
  lemma ShownUnlessNamed(suggestedTarget: Option<string>, currentIssueStatus: Option<string>, transitionLoading: bool)
    requires Truthy(suggestedTarget) && TargetCategory(suggestedTarget).Some?
    requires TargetCategory(suggestedTarget).value.Key() != NormalizeStatus(currentIssueStatus)
    ensures Button(suggestedTarget, currentIssueStatus, transitionLoading).None?
        <==> CompareStatuses(currentIssueStatus, suggestedTarget)
  {
    NotInTargetCategory(suggestedTarget, currentIssueStatus);
  }

  /** A target whose category key is the current status is never shown. */
  lemma HiddenInTargetCategory(suggestedTarget: Option<string>, currentIssueStatus: Option<string>, transitionLoading: bool)
    requires TargetCategory(suggestedTarget).Some?
    requires TargetCategory(suggestedTarget).value.Key() == NormalizeStatus(currentIssueStatus)
    ensures Button(suggestedTarget, currentIssueStatus, transitionLoading) == None
  {
    CategoryKeysAreNormal(TargetCategory(suggestedTarget).value);
  }

  /** A suggestion of helpers.ts is a non-empty target name. */
  lemma SuggestionIsTruthy(pr: PanelPr, currentIssueStatus: Option<string>)
    ensures SuggestedTarget(pr, currentIssueStatus).Some? ==> Truthy(SuggestedTarget(pr, currentIssueStatus))
  {
    SuggestForShape(StatusToLower(pr), IsApproved(pr), NormalizeStatus(currentIssueStatus));
  }

  /** The issue-aware suggestion of helpers.ts is never hidden by the category rule:
      its button is hidden only when the current status spells the target itself. */
  lemma AwareSuggestionHiddenOnlyByName(pr: PanelPr, currentIssueStatus: Option<string>, transitionLoading: bool)
    ensures var s := SuggestedTarget(pr, currentIssueStatus);
      s.Some? ==> (Button(s, currentIssueStatus, transitionLoading).None? <==> CompareStatuses(currentIssueStatus, s))
  {
    var s := SuggestedTarget(pr, currentIssueStatus);
    if s.Some? {
      SuggestionIsNeverCurrentCategory(pr, currentIssueStatus);
      SuggestionIsTruthy(pr, currentIssueStatus);
      ShownUnlessNamed(s, currentIssueStatus, transitionLoading);
    }
  }

  /** "To Do" does not match the status "new" by name, yet its button is hidden on a
      "new" issue: "To Do" classifies as the category whose key is "new". */
  lemma TodoHiddenOnNewIssue(transitionLoading: bool)
    ensures !CompareStatuses(Some(New.Key()), Some(TargetTodo))
    ensures Button(Some(TargetTodo), Some(New.Key()), transitionLoading) == None
  {
    CategoryKeysAreNormal(New);
    NormalizedLiteral(TargetTodo, "to do");
    SuggestedTargetsClassify();
    HiddenInTargetCategory(Some(TargetTodo), Some(New.Key()), transitionLoading);
  }

  /** A declined pull request makes utils/index.ts suggest "To Do". */
  lemma PlainSuggestionOfDeclined(pr: PanelPr)
    requires StatusToLower(pr) == Declined.Name()
    ensures SuggestedTargetOfPr(pr) == Some(TargetTodo)
  {
    PlainSuggestForCases(StatusToLower(pr), IsApproved(pr));
  }

  /** The category rule is what hides the plain suggestion of utils/index.ts for an
      issue already in its category: a declined pull request suggests "To Do", which
      does not match the status "new" by name, yet no button is shown on a "new" issue. */
  lemma CategoryRuleHidesPlainSuggestion(pr: PanelPr, transitionLoading: bool)
    requires StatusToLower(pr) == Declined.Name()
    ensures SuggestedTargetOfPr(pr) == Some(TargetTodo)
    ensures !CompareStatuses(Some(New.Key()), SuggestedTargetOfPr(pr))
    ensures Button(SuggestedTargetOfPr(pr), Some(New.Key()), transitionLoading) == None
  {
    PlainSuggestionOfDeclined(pr);
    TodoHiddenOnNewIssue(transitionLoading);
  }
}
