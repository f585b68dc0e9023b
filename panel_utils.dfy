/** static/overview-app/src/utils/index.ts: the helpers the issue panel actually
    imports. Its `normalizeStatus`, `formatApprovers`, `statusToLower`,
    `toDisplayStatus` and `compareStatuses` are the same code as in helpers.ts
    (module Helpers); its colour lookup normalises first and knows only three
    statuses, and its target suggestion ignores the issue's status. */
module PanelUtils {
  import opened Text
  import opened Vocabulary
  import opened Helpers

  /** The colour table of index.ts: no entries for declined and closed. */
  const PanelColorTable: map<string, StatusColors> :=
    map["open" := OpenColors, "merged" := MergedColors, "draft" := DraftColors]

  /** The colours of an already normalised status. */
  function LookupPanelColors(normalized: string): (r: StatusColors)
  {
    if normalized in PanelColorTable then PanelColorTable[normalized] else DefaultColors
  }

  /** `getStatusColors` of index.ts: the normalised status looked up, else the default. */
  function GetStatusColorsNormalised(status: Option<string>): (r: StatusColors)
    ensures NormalizeStatus(status) in PanelColorTable ==> r == PanelColorTable[NormalizeStatus(status)]
    ensures NormalizeStatus(status) !in PanelColorTable ==> r == DefaultColors
  {
    LookupPanelColors(NormalizeStatus(status))
  }

  /** The lookup ignores case and padding: a normalised status looks up the same. */
  lemma NormalisedColorsIgnoreCase(status: Option<string>)
    ensures GetStatusColorsNormalised(Some(NormalizeStatus(status))) == GetStatusColorsNormalised(status)
  {
    NormalizeStatusIdempotent(status);
  }

  /** The colours both lookups give one normalised status that index.ts leaves out. */
  lemma ColorsOfUnlistedStatus(normalized: string)
    requires normalized == "declined" || normalized == "closed"
    ensures LookupPanelColors(normalized) == DefaultColors
    ensures GetStatusColors(Some(normalized)) == ErrorColors
  {
    assert normalized in StatusColorTable && normalized !in PanelColorTable;
  }

  lemma ErrorColorsAreNotDefault()
    ensures ErrorColors != DefaultColors
  {
    assert ErrorColors.bg[3] != DefaultColors.bg[3];
  }

  /** Only open, merged and draft have their own colours: a status that normalises to
      declined or closed, in any case and padding, gets the default colours here,
      where helpers.ts gives the normalised status the error colours. */
  lemma ClosedStatusesHaveNoPanelColors(status: Option<string>)
    requires NormalizeStatus(status) == Declined.Name() || NormalizeStatus(status) == Closed.Name()
    ensures GetStatusColorsNormalised(status) == DefaultColors
    ensures GetStatusColors(Some(NormalizeStatus(status))) == ErrorColors
    ensures GetStatusColorsNormalised(status) != GetStatusColors(Some(NormalizeStatus(status)))
  {
    ColorsOfUnlistedStatus(NormalizeStatus(status));
    ErrorColorsAreNotDefault();
  }

  /** The suggestion rule of index.ts on the normalised pull-request status and its
      approval. */
  function PlainSuggestFor(prStatus: string, approved: bool): (r: Option<string>)
  {
    if prStatus == "merged" then Some(TargetDone)
    else if prStatus == "declined" || prStatus == "closed" then Some(TargetTodo)
    else if (prStatus == "open" || prStatus == "draft") && approved then Some(TargetInProgress)
    else None
  }

  /** The rule case by case: merged asks for Done, declined or closed for To Do, an
      APPROVED open or draft pull request for In Progress; nothing else. */
  lemma PlainSuggestForCases(prStatus: string, approved: bool)
    ensures var r := PlainSuggestFor(prStatus, approved);
      && (prStatus == Merged.Name() ==> r == Some(TargetDone))
      && (prStatus == Declined.Name() || prStatus == Closed.Name() ==> r == Some(TargetTodo))
      && ((prStatus == Open.Name() || prStatus == Draft.Name()) && approved ==> r == Some(TargetInProgress))
      && ((prStatus != Merged.Name() && prStatus != Declined.Name() && prStatus != Closed.Name() &&
           !((prStatus == Open.Name() || prStatus == Draft.Name()) && approved)) ==> r == None)
  {
  }

  /** `getSuggestedTarget` of index.ts: the rule applied to the pull request alone. */
  function SuggestedTargetOfPr(pr: PanelPr): (r: Option<string>)
  {
    PlainSuggestFor(StatusToLower(pr), IsApproved(pr))
  }

  /** The two rules compared on the same inputs. */
  lemma SuggestRulesCompared(prStatus: string, approved: bool, issueCategory: string)
    ensures var aware := SuggestFor(prStatus, approved, issueCategory);
      var plain := PlainSuggestFor(prStatus, approved);
      && (plain.Some? ==> aware == plain || aware == None)
      && (aware.Some? && plain.None? ==> prStatus == Open.Name() && !approved)
  {
  }

  /** The two suggesters compared: where the pull request asks for something, the
      issue-aware one of helpers.ts gives the same target or, when the issue is already
      in that category, nothing; it also suggests In Progress for an UNAPPROVED open
      pull request, which index.ts does not. */
  lemma SuggestersCompared(pr: PanelPr, currentIssueStatus: Option<string>)
    ensures var aware := SuggestedTarget(pr, currentIssueStatus);
      var plain := SuggestedTargetOfPr(pr);
      && (plain.Some? ==> aware == plain || aware == None)
      && (aware.Some? && plain.None? ==> StatusToLower(pr) == Open.Name() && !IsApproved(pr))
  {
    SuggestRulesCompared(StatusToLower(pr), IsApproved(pr), NormalizeStatus(currentIssueStatus));
  }

  /** Unlike the issue-aware suggester, this one can name the issue's own category:
      a merged pull request on a done issue still suggests Done. */
  lemma PlainSuggestionCanBeCurrent(pr: PanelPr)
    requires Truthy(pr.status) && pr.status.value == Merged.Name()
    ensures SuggestedTargetOfPr(pr) == Some(TargetDone)
    ensures SuggestedTarget(pr, Some(Done.Key())) == None
  {
    NormalizedLiteral(Merged.Name(), "merged");
    NormalizedLiteral(Done.Key(), "done");
    PlainSuggestForCases(StatusToLower(pr), IsApproved(pr));
    SuggestForCases(StatusToLower(pr), IsApproved(pr), NormalizeStatus(Some(Done.Key())));
  }
}
