# Overview panel: pull-request status and Jira issue reconciliation

This project models the core of a Jira issue panel that shows the Bitbucket pull
request belonging to an issue and keeps the issue's workflow status in line with
it. The model covers four parts.

- **The server engine** (`src/automation.ts` and its JavaScript build `src/automation.js`):
  - classify a target name into a Jira status category;
  - refuse a repeated automatic move to Done;
  - short-circuit when the issue already is at the target;
  - pick the first matching workflow transition and execute it;
  - keep the per-issue automation flags (`autoMovedToDone`, `autoMovedToToDo`,
    `manuallyMovedFromDone`) in the issue property store.

  It also covers the resolvers that read and write those flags.
- **The Bitbucket side** (`src/bitbucket.ts`, `src/bitbucket.js`, `src/config.ts`, `src/config.js`):
  - the configuration checks;
  - the paged search for the pull request whose source branch names the issue key;
  - commit and approval mapping;
  - status normalisation;
  - the `getPRWithCommits` resolver in both builds.
- **The panel** (`utils/helpers.ts`, `utils/index.ts`, `utils/commits.ts`, the
  `useIssueAutomation` hook and the `TransitionButton` visibility rule):
  - status normalisation, colours, approver text and target suggestion;
  - the commit-list paging;
  - the automatic and manual moves with their flag bookkeeping;
  - when the "Move to …" button is shown.
- **The deployment script** `scripts/load-env.js`: it copies four settings from
  `.env.local` into Forge variables.

Modelling choices:

- Every remote call (Jira REST, issue properties, Bitbucket pages, the panel's
  resolver calls, `spawnSync`) becomes an input describing how that call ended.
- State that the source changes in place is a class:
  - `Automation.JiraSite` holds the issue's status, its transitions, its
    properties and a ghost log of requests;
  - `IssueAutomationHook.IssueAutomation` holds the hook's React state.

  Each method is proved equal to a specification function (`Reconcile`,
  `MoveIssue`, `AutoTransitionStep`, …). The properties are proved about those
  functions.
- Loops become methods with invariants, each proved against a reference function:
  - the page loop of `findPrByIssueKey` against `SearchPages`;
  - the `find` inside one page against `FirstBranchMatch`;
  - the push sequence of `getMissingConfigurationFields` against `MissingFields`;
  - `buildForgeArgs` against `ForgeArgs`;
  - the set loop of `load-env.js` against `SetAll`.
- Strings are ASCII `seq<char>`. `toLowerCase`, `toUpperCase`, `trim`, `includes`,
  `replace`, `split` and `join` are written out in module `Text`.
- JavaScript truthiness of optional strings (`x || ''`, `!x`) is `Truthy`, `OrEmpty` and `Or`.

## Model

| member | source | states |
|---|---|---|
| Automation.NormalizeLower | src/automation.ts:60-62 | the result is the input (absent reads as empty) lower-cased character by character: same length, each character the lower-case form of the one at the same place |
| Vocabulary.FirstMatchingRule | src/automation.ts:65-87 | a keyword classifier answers the category of the FIRST rule in table order one of whose keywords occurs, and nothing exactly when no rule's keyword occurs |
| Automation.DesiredCategoryKey | src/automation.ts:65-87 | the TypeScript classifier is the first-match classifier over the table done, to-do, in-progress on the lower-cased target |
| AutomationFacts.DesiredCategoryKeyCases | src/automation.ts:65-87 | case by case, in both directions: Done iff "done" occurs; New iff no "done" but a to-do keyword; Indeterminate iff neither but an in-progress keyword; none otherwise |
| AutomationFacts.DoneTargetAsksForDone | src/automation.ts:68 | the target "Done" asks for the done category |
| AutomationFacts.TodoTargetAsksForNew | src/automation.ts:70-76 | the target "To Do" asks for the new category |
| AutomationFacts.InProgressTargetAsksForIndeterminate | src/automation.ts:78-84 | the target "In Progress" asks for the indeterminate category |
| AutomationJs.DesiredCategoryKey | src/automation.js:11-25 | the JavaScript classifier is the first-match classifier over the table done, in-progress: it has no to-do rule |
| AutomationJs.ClassifierDiffersOnlyOnNew | src/automation.js:11-25 | the two builds' classifiers agree except where TypeScript answers New; there JavaScript answers Indeterminate or nothing, and it never answers New |
| AutomationJs.TodoTargetIsUnclassified | src/automation.js:11-25 | in the JavaScript build "To Do" has no category, so the to-do move relies on transition names alone |
| Automation.FirstMatch | src/automation.ts:117-129 | the index found is a matching transition and no earlier transition matches; nothing found means none matches |
| Automation.MatchesTarget | src/automation.ts:117-129 | definition of the three-way test a transition is picked by (destination category, destination name or transition name containing the lower-cased target); FirstMatch and FindMatchingTransitionIsFirstMatch state what it selects |
| Automation.FindMatchingTransition | src/automation.ts:117-129 | definition of `findMatchingTransition`; its properties are FindMatchingTransitionIsFirstMatch (first match in list order, none iff nothing matches or the list is absent) and EmptyTargetPicksFirst |
| Automation.ShouldSkipAutoDoneMove | src/automation.ts:89-94 | definition of the one-shot guard (automatic, target mentions "done", and either stored flag set); SkipGuardStopsBeforeTransitions and AutoDoneAtMostOnce state its effect |
| Automation.IsAlreadyAtTarget | src/automation.ts:97-115 | definition of the "already there" test (same category, or the status name contains the lower-cased target); AlreadyMakesNoTransitionCalls and RepeatAfterMoveIsAlready state its effect |
| Automation.StoredState | src/automation.ts:159-170 | definition of the stored-record read (the record only on a 2xx reply for a stored key); GetAutomationState, ReadAutomationState and AutoDoneMergesFlags state it |
| Automation.FailureText | src/automation.ts:225-242 | definition of a failed call's error text (status after the prefix, or the thrown message); OutcomeCases states the texts each failure gives |
| Automation.NoTransitionText | src/automation.ts:232 | definition of the text answered when no transition matches the target; OutcomeCases states when it is answered |
| Automation.RecordAutoDone | src/automation.ts:259-268 | definition of the re-read, merge and write after a committed automatic move to Done; AutoDoneMergesFlags, RecordAutoDoneKeepsStatus and PersistAutoDone state it |
| AutomationFacts.RecordAutoDoneKeepsStatus | src/automation.ts:259-268 | the flag bookkeeping never changes the issue's status name or category |
| Automation.MoveIssue | src/automation.ts:219-270 | definition of the transition steps (fetch, pick, POST, advisory writes); MoveIssuePostsOnce, MoveIssueLandsOnDestination, MoveIssueIgnoresAdvisoryWrites and ExecuteTransition state it |
| Automation.Reconcile | src/automation.ts:188-276 | definition of `transitionIssue` as a function; OutcomeCases, AtMostOnePost, SkipGuardStopsBeforeTransitions, AlreadyMakesNoTransitionCalls, AutoDoneAtMostOnce and JiraSite.TransitionIssue state it |
| AutomationFacts.FindMatchingTransitionIsFirstMatch | src/automation.ts:117-129 | a transition is picked iff the list exists and some transition matches by category, destination name or transition name, and the one picked is the first such in list order |
| AutomationFacts.EmptyTargetPicksFirst | src/automation.ts:117-129 | an empty target name matches every transition, so the first one listed is taken |
| Automation.GetIssueStatus | src/automation.ts:295-309 | the status resolver needs a key; it answers the lower-cased category key, or the fetch's status or thrown message as the error |
| Automation.GetAutomationState | src/automation.ts:312-331 | the state resolver needs a key; a non-2xx or missing property is a successful null, a throw a failure with its message, and a read gives the stored record |
| Automation.JiraSite.constructor | src/automation.ts:132-157 | the site starts as the given Jira state with no requests made |
| Automation.JiraSite.LoadIssueStatus | src/automation.ts:132-157 | one issue GET; a 2xx gives the lower-cased status name and category, otherwise the "Failed to fetch issue: <status>" or thrown text |
| Automation.JiraSite.ReadAutomationState | src/automation.ts:159-170 | one property GET; the stored record only on a 2xx reply for a stored key, and whether the call threw |
| Automation.JiraSite.TransitionIssue | src/automation.ts:188-276 | the step-by-step engine returns exactly the response, the Jira state and the request log of the reference function `Reconcile` |
| Automation.JiraSite.ExecuteTransition | src/automation.ts:219-270 | fetch, pick, POST and the advisory writes, equal in response, state and requests to `MoveIssue` |
| Automation.JiraSite.PersistAutoDone | src/automation.ts:259-268 | the re-read, merge and write of `autoMovedToDone`, equal to `RecordAutoDone`: a throwing re-read skips the write, a failed write changes nothing |
| Automation.JiraSite.ResolveTransitionIssue | src/automation.ts:281-292 | without a key or a target the answer is "issueKey and targetName are required" with no request and no change; otherwise the engine with the TypeScript classifier |
| AutomationJs.ResolveTransitionIssue | src/automation.js:192-204 | the JavaScript resolver: the same required-argument check, then the engine with the JavaScript classifier |
| Automation.JiraSite.SaveAutomationState | src/automation.ts:333-353 | the save resolver needs a key and a state; it overwrites the whole record on a 2xx reply, reports "Failed to save automation state: <status> <text>" or the thrown message otherwise, and touches nothing else |
| AutomationFacts.SkipGuardStopsBeforeTransitions | src/automation.ts:192-211 | the answer is "skipped" iff the issue loaded, the move is automatic to Done, the property read succeeded and the stored record has `autoMovedToDone` or `manuallyMovedFromDone`; then only the issue and the property were read and nothing changed |
| AutomationFacts.AlreadyMakesNoTransitionCalls | src/automation.ts:213-217 | the "already" answer comes iff the issue is at the target by category or name, it reports the lower-cased status and category, and it makes no transition call and no change |
| AutomationFacts.AtMostOnePost | src/automation.ts:235-243 | one run POSTs at most one transition, and a "moved" answer means exactly one POST that succeeded |
| AutomationFacts.MoveIssuePostsOnce | src/automation.ts:219-270 | the same at-most-one-POST bound for the transition steps alone |
| AutomationFacts.MovedLandsOnDestination | src/automation.ts:235-270 | after "moved" the issue's status and category are the destination of the transition the matcher picks, and the transition list is unchanged (under the modelled POST, see "Left out") |
| AutomationFacts.MoveIssueLandsOnDestination | src/automation.ts:235-270 | the same landing property for the transition steps alone |
| AutomationFacts.OutcomeCases | src/automation.ts:188-276 | every failure path with its exact error text (issue fetch, transitions fetch, no match, POST), "moved" iff every required call succeeded and a transition matched, and a failure changes nothing |
| AutomationFacts.MoveIssueIgnoresAdvisoryWrites | src/automation.ts:245-268 | for the transition steps, the audit and flag writes never change the answer or the issue's status |
| AutomationFacts.AdvisoryWritesDoNotChangeResponse | src/automation.ts:245-268 | for the whole engine, how the audit write and the flag re-read and write end never changes the answer or the issue's status |
| AutomationFacts.AutoDoneMergesFlags | src/automation.ts:259-268 | only a committed automatic move to Done with a successful write changes the flags; it sets `autoMovedToDone` and keeps the other two flags as read back (`{}` when the re-read is not 2xx), and no other issue's record changes |
| AutomationFacts.AutoDoneAtMostOnce | src/automation.ts:192-211 | after a recorded automatic move to Done, the next automatic Done request is skipped without POSTing or changing anything |
| AutomationFacts.RepeatAfterMoveIsAlready | src/automation.ts:213-217 | when the transition was chosen by its destination, repeating the same request answers "already" with no POST and no change |
| AutomationFacts.ReviewMoves | src/automation.ts:117-129 | a target matched only by transition name ("Review" via a transition named "Review" to "Under check") does move the issue |
| AutomationFacts.RepeatCanMoveAgain | src/automation.ts:213-217 | the same request repeated POSTs again: the engine is not idempotent when the match was by transition name alone (under the modelled POST, see "Left out") |
| Config.CheckCredentials | src/config.ts:29-34 | the credential check shared by both builds passes iff username and app password are non-empty, and otherwise refuses with the message it is given |
| Config.ValidateBitbucketCredentials | src/config.ts:29-34 | the check passes iff username and app password are non-empty, and otherwise fails with the fixed instruction message |
| Config.CredentialsIgnoreRepository | src/config.ts:29-34 | the workspace and repository slug play no part in the credential check |
| Config.ConfiguredPassesValidation | src/config.ts:36-43 | a configured app (all four settings non-empty) always passes the credential check |
| Config.IsConfigured | src/config.ts:36-43 | definition of `isConfigured` (all four settings non-empty); ConfiguredPassesValidation and MissingFieldsAreTheUnsetSettings state it |
| ConfigJs.ValidateBitbucketCredentials | src/config.js:23-30 | the JavaScript check accepts exactly the settings the TypeScript check accepts (both credentials non-empty); it refuses with its own message, which names only .env.local |
| Bitbucket.StripApiBase | src/bitbucket.ts:106-108 | an absent link gives "", and a link without the API base is kept as it is |
| Bitbucket.StripApiBaseOfAbsoluteUrl | src/bitbucket.ts:106-108 | the absolute `next` link of the API strips back to its path |
| Bitbucket.NormalisePrStatus | src/bitbucket.ts:188-201 | case-insensitive and total: MERGED is merged, OPEN is draft iff `draft` is true and open otherwise, DECLINED is declined, anything else (absent included) is closed |
| Bitbucket.NormalisePrStatusIgnoresCase | src/bitbucket.ts:188-201 | a lower-cased state normalises like the original |
| Bitbucket.GetMissingConfigurationFields | src/bitbucket.ts:111-120 | the push sequence yields exactly the unset settings in the fixed order |
| Bitbucket.MissingFieldsAreTheUnsetSettings | src/bitbucket.ts:111-120 | each setting is reported iff it is absent or empty, and nothing is reported iff the app is configured |
| Bitbucket.MissingFields | src/bitbucket.ts:111-120 | definition of the unset settings in the fixed order; GetMissingConfigurationFields and MissingFieldsAreTheUnsetSettings state it |
| Bitbucket.CheckConfiguration | src/bitbucket.ts:204-216 | configured iff no setting is missing; otherwise the error lists the missing settings in order, joined by ", " |
| BitbucketJs.CheckConfigurationJs | src/bitbucket.js:129-141 | the JavaScript check has the same verdict, with its own message prefix |
| Bitbucket.CommitAuthor | src/bitbucket.ts:145-156 | the author is the display name, else the raw author before the first "<", else "Unknown"; never empty |
| Bitbucket.MapCommits | src/bitbucket.ts:145-156 | one entry per listed commit, in order (no listing gives none), each the commit's fields with absent text as "" |
| Bitbucket.MapCommitsKeepsPresentFields | src/bitbucket.ts:145-156 | a commit with every field present keeps them all |
| Bitbucket.ToCommitInfo | src/bitbucket.ts:145-156 | definition of one commit entry (absent text as "", author by CommitAuthor); MapCommits and MapCommitsKeepsPresentFields state it |
| BitbucketJs.MapCommitsJs | src/bitbucket.js:71-82 | the JavaScript mapping: one entry per commit, in order, absent fields left absent |
| BitbucketJs.MapCommitsBuildsAgree | src/bitbucket.js:71-82 | the two builds list the same commits with the same authors; the TypeScript entry is the JavaScript one with absent fields read as "" |
| BitbucketJs.ToCommitInfoJs | src/bitbucket.js:71-82 | definition of one JavaScript commit entry (absent fields stay absent); MapCommitsJs and MapCommitsBuildsAgree state it |
| Bitbucket.ApproverName | src/bitbucket.ts:167-186 | an approver's name is never empty (the "Unknown" fallback) |
| Bitbucket.ApprovedParticipants | src/bitbucket.ts:167-186 | the kept participants are exactly those whose `approved` is true |
| Bitbucket.ApprovedParticipantsKeepOrder | src/bitbucket.ts:167-186 | the kept participants appear in the order of the participant list: they are its entries at strictly increasing positions |
| Bitbucket.ApprovedParticipantsCount | src/bitbucket.ts:167-186 | the number kept equals the count of participants approved |
| Bitbucket.ToApprover | src/bitbucket.ts:167-186 | definition of one approver entry (name by ApproverName); LoadPrApprovals states the list it builds |
| Bitbucket.CountApproved | src/bitbucket.ts:167-186 | definition of the number of participants approved; ApprovedParticipantsCount and LoadPrApprovals state it |
| Bitbucket.LoadPrApprovals | src/bitbucket.ts:167-186 | the approvers are the approved participants in order, the count is their number, `approved` iff the count is positive, and a failed fetch gives no approvals |
| Bitbucket.FirstBranchMatch | src/bitbucket.ts:131-135 | the position found holds a branch containing the key and none before it does |
| Bitbucket.ContinuesWhenPathLeft | src/bitbucket.ts:137-139 | the search goes on to the next page exactly when the stripped `next` link is non-empty |
| Bitbucket.SearchPages | src/bitbucket.ts:123-143 | the reference search reads at least one page and never more than are given |
| Bitbucket.SearchReadsOnlyNeededPages | src/bitbucket.ts:128-140 | a page is fetched only when every earlier page led on and held no match |
| Bitbucket.SearchFindsFirstMatch | src/bitbucket.ts:123-143 | the search finds the FIRST pull request, page then list order, whose branch contains the key, having examined exactly the branches up to it; without a match it examined every listed branch and none contains the key |
| Bitbucket.ScanPage | src/bitbucket.ts:131-135 | the `find` over one page returns the first match and the branches up to and including it, or no match and every branch |
| Bitbucket.FindPrByIssueKey | src/bitbucket.ts:123-143 | the page loop returns exactly the reference search's result |
| Bitbucket.Assemble | src/bitbucket.ts:246-266 | the answer carries the commits given with their count and the normalised status of the pull request |
| Bitbucket.PrWithCommitsFacts | src/bitbucket.ts:240-266 | a found pull request comes with counted commits, a normalised status, consistent approvals and a source branch containing the key; a miss lists every branch of the listing, none containing the key |
| Bitbucket.MissingTargetThrowsFirst | src/bitbucket.ts:231-238 | without a workspace, repository or key the resolver throws the "required" message, whatever Bitbucket would answer |
| Bitbucket.GetPrWithCommits | src/bitbucket.ts:230-268 | the step-by-step resolver returns exactly the reference function's outcome |
| Bitbucket.RequestTarget | src/bitbucket.ts:231-234 | definition of the workspace, repository and key (`||` fallbacks, key defaulting to ""); MissingTargetThrowsFirst and FullPayloadBuildsAgree state it |
| Bitbucket.NotFoundText | src/bitbucket.ts:243 | definition of the "No PR found … Checked branches: …" text; PrWithCommitsFacts states when it is answered |
| Bitbucket.PrWithCommitsFor | src/bitbucket.ts:240-266 | definition of the resolver once the target is known, shared by both builds; PrWithCommitsFacts and ResolvePr state it |
| Bitbucket.PrWithCommits | src/bitbucket.ts:230-268 | definition of `getPRWithCommits`; MissingTargetThrowsFirst, PrWithCommitsFacts and GetPrWithCommits state it |
| Bitbucket.ResolvePr | src/bitbucket.ts:240-266 | the fetching half (credential check, search, commits, approvals) equals its reference function in both builds |
| BitbucketJs.RequestTargetJs | src/bitbucket.js:158-162 | a default applies only to an ABSENT payload value; a present empty value is kept, and the key defaults to "" |
| BitbucketJs.GetPrWithCommitsJs | src/bitbucket.js:157-196 | the step-by-step JavaScript resolver returns exactly its reference function's outcome |
| BitbucketJs.PrWithCommitsJs | src/bitbucket.js:157-196 | definition of the JavaScript `getPRWithCommits`; GetPrWithCommitsJs, EmptyWorkspaceDiffers and FullPayloadBuildsAgree state it |
| BitbucketJs.EmptyWorkspaceDiffers | src/bitbucket.js:158-166 | an explicitly empty workspace is rejected in JavaScript but replaced by the configured one in TypeScript |
| BitbucketJs.FullPayloadBuildsAgree | src/bitbucket.js:157-196 | with a full payload and credentials, both builds search the same target and agree on throwing, on found or not found, on the error text and on the pull request reported |
| Helpers.NormalizeStatus | static/overview-app/src/utils/helpers.ts:35-37 | the normalised status is lower-case with no white space left at either end, and absent or empty gives "" |
| Helpers.NormalizeStatusTrims | static/overview-app/src/utils/helpers.ts:35-37 | the normalised status is the lower-cased input with the white space at both ends cut away: a contiguous piece of it, preceded and followed only by white space |
| Text.Trim | static/overview-app/src/utils/helpers.ts:35-37 | what `trim()` returns neither starts nor ends with white space |
| Text.TrimCutsWhiteSpace | static/overview-app/src/utils/helpers.ts:35-37 | `trim()` returns the contiguous piece of its input left once white space is cut from both ends: only white space precedes and follows it |
| Helpers.NormalizeStatusIdempotent | static/overview-app/src/utils/helpers.ts:35-37 | normalising twice is normalising once |
| Helpers.CompareStatusesIgnoresCase | static/overview-app/src/utils/helpers.ts:110-112 | the comparison ignores case, and an absent status equals the empty one |
| Helpers.CompareStatusesIsEquivalence | static/overview-app/src/utils/helpers.ts:110-112 | the comparison is reflexive, symmetric and transitive |
| Helpers.CompareStatuses | static/overview-app/src/utils/helpers.ts:110-112 | definition of `compareStatuses` (equal once normalised); CompareStatusesIgnoresCase and CompareStatusesIsEquivalence state it |
| Helpers.StatusToLower | static/overview-app/src/utils/helpers.ts:55-57 | the normalised `status` when it is non-empty, else the normalised `state` |
| Helpers.ToDisplayStatus | static/overview-app/src/utils/helpers.ts:59-62 | same length; only the first character is upper-cased |
| Helpers.DisplayStatusNormalisesBack | static/overview-app/src/utils/helpers.ts:59-62 | the display form normalises to the same status as the original |
| Helpers.FormatApprovers | static/overview-app/src/utils/helpers.ts:50-53 | "" for none; otherwise the text starts with the first name, and up to three approvers are their names joined by ", " |
| Helpers.FormatApproversShowsAtMostThree | static/overview-app/src/utils/helpers.ts:50-53 | approvers after the third never change the text |
| Helpers.GetStatusColors | static/overview-app/src/utils/helpers.ts:45-47 | a direct table lookup (case and padding count), with the default colours for anything not in the table |
| Helpers.StatusColorsOfReportedStatuses | static/overview-app/src/utils/helpers.ts:13-19 | each status the server reports has its own colours; declined and closed share the error colours |
| Helpers.TargetCategory | static/overview-app/src/utils/helpers.ts:65-90 | the panel classifier is the first-match classifier over done, to-do and in-progress plus "in review", on the lower-cased and trimmed target |
| Helpers.TargetCategoryCases | static/overview-app/src/utils/helpers.ts:65-90 | case by case, in both directions: "done" wins, then the to-do keywords, then the in-progress keywords or "in review" |
| Helpers.TargetCategoryIgnoresPadding | static/overview-app/src/utils/helpers.ts:65-90 | surrounding white space does not change the category |
| Helpers.SuggestedTargetsClassify | static/overview-app/src/utils/helpers.ts:65-90 | "Done", "To Do" and "In Progress" classify as done, new and indeterminate |
| Helpers.SuggestForCases | static/overview-app/src/utils/helpers.ts:93-107 | merged asks for Done, declined or closed for To Do, open or approved draft for In Progress, each unless the issue is already in that category; nothing otherwise |
| Helpers.SuggestForShape | static/overview-app/src/utils/helpers.ts:93-107 | a suggestion is one of the three targets and never the one whose category key the issue's category is |
| Helpers.SuggestionIsNeverCurrentCategory | static/overview-app/src/utils/helpers.ts:93-107 | a suggestion classifies, and its category is never the one the issue is in |
| Helpers.IsApproved | static/overview-app/src/utils/helpers.ts:95 | definition of `Boolean(pr.approvals && pr.approvals > 0)`; SuggestersCompared and the suggestion lemmas use it |
| Helpers.SuggestFor | static/overview-app/src/utils/helpers.ts:93-107 | definition of the issue-aware suggestion rule; SuggestForCases and SuggestForShape state it case by case |
| Helpers.SuggestedTarget | static/overview-app/src/utils/helpers.ts:93-107 | definition of `getSuggestedTarget` of helpers.ts; SuggestionIsNeverCurrentCategory, SuggestersCompared and SuggestionIsTruthy state it |
| PanelUtils.GetStatusColorsNormalised | static/overview-app/src/utils/index.ts:40-43 | the normalised status is looked up in the three-entry table, else the default colours |
| PanelUtils.LookupPanelColors | static/overview-app/src/utils/index.ts:11-15 | definition of the three-entry colour table with the default colours elsewhere; GetStatusColorsNormalised and ColorsOfUnlistedStatus state it |
| PanelUtils.ColorsOfUnlistedStatus | static/overview-app/src/utils/index.ts:11-15 | "declined" and "closed" get the default colours in index.ts and the error colours in helpers.ts |
| PanelUtils.NormalisedColorsIgnoreCase | static/overview-app/src/utils/index.ts:40-43 | an already normalised status gets the same colours as the raw one |
| PanelUtils.ClosedStatusesHaveNoPanelColors | static/overview-app/src/utils/index.ts:11-15 | declined and closed get the default colours here but the error colours in helpers.ts |
| PanelUtils.PlainSuggestForCases | static/overview-app/src/utils/index.ts:59-69 | merged asks for Done, declined or closed for To Do, APPROVED open or draft for In Progress, nothing otherwise, whatever the issue's status |
| PanelUtils.PlainSuggestFor | static/overview-app/src/utils/index.ts:59-69 | definition of the suggestion rule of index.ts; PlainSuggestForCases states it case by case |
| PanelUtils.SuggestedTargetOfPr | static/overview-app/src/utils/index.ts:59-69 | definition of `getSuggestedTarget` of index.ts; SuggestersCompared, PlainSuggestionCanBeCurrent and PlainSuggestionOfDeclined state it |
| PanelUtils.SuggestRulesCompared | static/overview-app/src/utils/index.ts:59-69 | where the plain rule suggests, the issue-aware rule suggests the same or nothing; it alone suggests for an unapproved open pull request |
| PanelUtils.SuggestersCompared | static/overview-app/src/utils/index.ts:59-69 | the same comparison for the two `getSuggestedTarget` functions on a pull request |
| PanelUtils.PlainSuggestionCanBeCurrent | static/overview-app/src/utils/index.ts:59-69 | the plain suggester still suggests Done for a merged pull request on a done issue, where the issue-aware one suggests nothing |
| Commits.GetVisibleCommits | static/overview-app/src/utils/commits.ts:3-5 | a prefix of the list, of the requested length clamped to the list; a negative count drops that many from the end |
| Commits.VisibleCommitsGrow | static/overview-app/src/utils/commits.ts:3-5 | showing more never hides a commit that was shown |
| Commits.GetShortCommitHash | static/overview-app/src/utils/commits.ts:7-9 | the first seven characters, or the whole hash when shorter |
| Commits.GetNextVisibleCount | static/overview-app/src/utils/commits.ts:11-13 | one step more while not everything is shown, never past the total; back to one step once everything is |
| Commits.GetToggleLabel | static/overview-app/src/utils/commits.ts:15-17 | "Show more" iff not everything is shown, "Show less" otherwise |
| Commits.PressesReachTotal | static/overview-app/src/utils/commits.ts:11-17 | from any count up to the total, pressing reaches the total exactly, each press before offering "Show more" |
| Commits.PagingCycle | static/overview-app/src/utils/commits.ts:1-17 | from the initial five the list grows to the total, the label turns to "Show less", and the next press resets to one step |
| TransitionButton.Button | static/overview-app/src/components/TransitionButton/index.tsx:22-51 | hidden iff there is no target, the status matches the target by name, or the status is the target's category key; otherwise disabled exactly while loading, captioned "Moving..." or "Move to <target>" |
| TransitionButton.LoadingOnlyDisables | static/overview-app/src/components/TransitionButton/index.tsx:38 | a running transition disables the button but never hides it |
| TransitionButton.AlreadyInTargetCategory | static/overview-app/src/components/TransitionButton/index.tsx:22-25 | definition of `alreadyInTargetCategory`; HiddenInTargetCategory and NotInTargetCategory state it |
| TransitionButton.NotInTargetCategory | static/overview-app/src/components/TransitionButton/index.tsx:22-25 | a target whose category key differs from the normalised current status is not already in its category |
| TransitionButton.SuggestionIsTruthy | static/overview-app/src/components/TransitionButton/index.tsx:27-31 | a suggestion of helpers.ts is never empty, so `!suggestedTarget` never hides it |
| TransitionButton.PlainSuggestionOfDeclined | static/overview-app/src/utils/index.ts:59-69 | a declined pull request makes index.ts suggest "To Do" |
| TransitionButton.HiddenInTargetCategory | static/overview-app/src/components/TransitionButton/index.tsx:22-32 | a target whose category key is the current status is never shown |
| TransitionButton.ShownUnlessNamed | static/overview-app/src/components/TransitionButton/index.tsx:22-32 | a target in another category is hidden only when the status matches it by name |
| TransitionButton.AwareSuggestionHiddenOnlyByName | static/overview-app/src/components/TransitionButton/index.tsx:22-32 | the category rule never hides a suggestion of helpers.ts; only a name match does |
| TransitionButton.TodoHiddenOnNewIssue | static/overview-app/src/components/TransitionButton/index.tsx:22-32 | "To Do" does not match the status "new" by name, yet its button is hidden on a new issue |
| TransitionButton.CategoryRuleHidesPlainSuggestion | static/overview-app/src/components/TransitionButton/index.tsx:22-32 | the "To Do" that utils/index.ts suggests for a declined pull request is hidden on a new issue by the category rule alone |
| IssueAutomationHook.LoadAdoptsStoredFlags | static/overview-app/src/hooks/useIssueAutomation.tsx:65-81 | no call without a key or a pull request; otherwise one read call, and the local flags become the stored record (`{}` when none) only when the read succeeds, with nothing else changed |
| IssueAutomationHook.SaveStep | static/overview-app/src/hooks/useIssueAutomation.tsx:51-63 | definition of `saveState` on a snapshot; SaveStateAdoptsOnlyOnSuccess and IssueAutomation.SaveState state it |
| IssueAutomationHook.LoadStep | static/overview-app/src/hooks/useIssueAutomation.tsx:65-81 | definition of the loading effect on a snapshot; LoadAdoptsStoredFlags and IssueAutomation.LoadAutomationState state it |
| IssueAutomationHook.ManualOverrideStep | static/overview-app/src/hooks/useIssueAutomation.tsx:83-109 | definition of the manual-override effect; ManualOverridePersistsOnce and ManualOverrideMarksRemoval state it |
| IssueAutomationHook.AutoTransitionApplies | static/overview-app/src/hooks/useIssueAutomation.tsx:111-125 | definition of the guards of the auto-transition effect; AutoTransitionAppliesCases states them case by case |
| IssueAutomationHook.MovedFlag | static/overview-app/src/hooks/useIssueAutomation.tsx:135 | definition of `res?.moved !== undefined ? res.moved : res?.success`; AutoMoveSuccess and AutoTransitionFailureKeepsState state its effect |
| IssueAutomationHook.AutoMovedState | static/overview-app/src/hooks/useIssueAutomation.tsx:138-140 | definition of the fresh one-flag record; AutoMovedStateHasOneFlag states it |
| IssueAutomationHook.AutoMoveStep | static/overview-app/src/hooks/useIssueAutomation.tsx:127-153 | definition of the automatic move; AutoMoveSuccess and AutoTransitionFailureKeepsState state it |
| IssueAutomationHook.AutoTransitionStep | static/overview-app/src/hooks/useIssueAutomation.tsx:111-157 | definition of the auto-transition effect; AutoTransitionGuard, AutoTransitionIsOneShot and AutoTransitionStaysSettled state it |
| IssueAutomationHook.MoveToTargetStep | static/overview-app/src/hooks/useIssueAutomation.tsx:159-181 | definition of `handleMoveToDone`; MoveToTargetOutcome and HandlersStaySettled state it |
| IssueAutomationHook.RestoreStep | static/overview-app/src/hooks/useIssueAutomation.tsx:183-212 | definition of `handleRestoreToDone`; RestoreOutcome, RestoreHidesNotification and HandlersStaySettled state it |
| IssueAutomationHook.ShowRestoreNotification | static/overview-app/src/components/Details/index.tsx:47-51 | definition of the restore banner's condition; RestoreHidesNotification states it is off after a successful restore |
| IssueAutomationHook.SaveStateAdoptsOnlyOnSuccess | static/overview-app/src/hooks/useIssueAutomation.tsx:51-63 | no call without a key; otherwise one save call, and the local flags become the saved record only on success, with nothing else changed |
| IssueAutomationHook.ManualOverridePersistsOnce | static/overview-app/src/hooks/useIssueAutomation.tsx:83-104 | the manual flag is saved (other flags kept) iff the issue was auto-moved to Done, its known status is not done and the flag is not yet set |
| IssueAutomationHook.ManualOverrideMarksRemoval | static/overview-app/src/hooks/useIssueAutomation.tsx:83-109 | whenever the issue was auto-moved to Done and is no longer done it is marked manually removed; otherwise nothing changes |
| IssueAutomationHook.AutoTransitionGuard | static/overview-app/src/hooks/useIssueAutomation.tsx:111-127 | the automatic move calls the transition first exactly when it applies; otherwise nothing at all happens |
| IssueAutomationHook.AutoTransitionAppliesCases | static/overview-app/src/hooks/useIssueAutomation.tsx:115-125 | it applies to a merged pull request without either Done flag, or a declined or closed one without the To Do flag; never to an open or draft one |
| IssueAutomationHook.AutoMoveSuccess | static/overview-app/src/hooks/useIssueAutomation.tsx:129-153 | a confirmed move (`moved` defaulting to `success`) saves a fresh one-flag record, shows the automatic message, takes the lower-cased target as status, clears the removal mark and ends the spinner |
| IssueAutomationHook.AutoMovedStateHasOneFlag | static/overview-app/src/hooks/useIssueAutomation.tsx:138-140 | the saved record holds exactly the flag of the move made |
| IssueAutomationHook.AutoTransitionFailureKeepsState | static/overview-app/src/hooks/useIssueAutomation.tsx:135-153 | an unconfirmed or thrown move leaves everything but the spinner as it was, after one transition call |
| IssueAutomationHook.AutoTransitionIsOneShot | static/overview-app/src/hooks/useIssueAutomation.tsx:122-142 | once the automatic move has been saved, running the effect again asks for nothing |
| IssueAutomationHook.MoveToTargetOutcome | static/overview-app/src/hooks/useIssueAutomation.tsx:159-181 | no-op without key or target; otherwise one manual transition call, the success text and new status, the error text, or no message; spinner off and flags untouched |
| IssueAutomationHook.RestoreOutcome | static/overview-app/src/hooks/useIssueAutomation.tsx:183-212 | a successful restore saves the flags with the manual flag cleared and the automatic one kept, sets the status to done and says so; any other outcome changes no flag or status; the spinner ends off |
| IssueAutomationHook.RestoreHidesNotification | static/overview-app/src/components/Details/index.tsx:47-51 | after a successful restore the restore banner is not shown |
| IssueAutomationHook.EffectsStaySettled | static/overview-app/src/hooks/useIssueAutomation.tsx:51-109 | saving, loading and the manual-override effect never leave a spinner on |
| IssueAutomationHook.AutoTransitionStaysSettled | static/overview-app/src/hooks/useIssueAutomation.tsx:127-153 | the automatic move ends with the spinner off, whatever the outcome |
| IssueAutomationHook.HandlersStaySettled | static/overview-app/src/hooks/useIssueAutomation.tsx:159-212 | both click handlers end with their spinner off |
| IssueAutomationHook.IssueAutomation.constructor | static/overview-app/src/hooks/useIssueAutomation.tsx:45-49 | the first render has no flags, no message and no spinner |
| IssueAutomationHook.IssueAutomation.Rerender | static/overview-app/src/hooks/useIssueAutomation.tsx:38-44 | new props replace the old, and the hook's state is kept |
| IssueAutomationHook.IssueAutomation.SaveState | static/overview-app/src/hooks/useIssueAutomation.tsx:51-63 | the new state and calls are those of `SaveStep` |
| IssueAutomationHook.IssueAutomation.LoadAutomationState | static/overview-app/src/hooks/useIssueAutomation.tsx:65-81 | the new state and calls are those of `LoadStep` |
| IssueAutomationHook.IssueAutomation.ManualOverrideEffect | static/overview-app/src/hooks/useIssueAutomation.tsx:83-109 | the new state and calls are those of `ManualOverrideStep` |
| IssueAutomationHook.IssueAutomation.AutoTransitionEffect | static/overview-app/src/hooks/useIssueAutomation.tsx:111-157 | the new state and calls are those of `AutoTransitionStep` |
| IssueAutomationHook.IssueAutomation.MoveAutomatically | static/overview-app/src/hooks/useIssueAutomation.tsx:127-153 | the new state and calls are those of `AutoMoveStep` |
| IssueAutomationHook.IssueAutomation.HandleMoveToDone | static/overview-app/src/hooks/useIssueAutomation.tsx:159-181 | the new state and calls are those of `MoveToTargetStep` |
| IssueAutomationHook.IssueAutomation.HandleRestoreToDone | static/overview-app/src/hooks/useIssueAutomation.tsx:183-212 | the new state and calls are those of `RestoreStep` |
| LoadEnv.FindEnvironmentFlag | scripts/load-env.js:12 | the index found holds `-e` or `--environment` and no earlier argument does |
| LoadEnv.Environment | scripts/load-env.js:12-13 | the environment is present iff a first flag exists with an argument after it, and then it is that argument |
| LoadEnv.IsDryRun | scripts/load-env.js:10 | definition of `args.includes('--dry-run')`; LoadEnvOutcomes states its effect |
| LoadEnv.BuildForgeArgs | scripts/load-env.js:22-35 | the push sequence yields exactly the reference argument list |
| LoadEnv.ForgeArgsShape | scripts/load-env.js:22-35 | "variables set" first, key and value last, "--encrypt" iff encrypted, "--environment <env>" iff an environment is given, in that order |
| LoadEnv.ForgeArgs | scripts/load-env.js:22-35 | definition of one call's arguments; ForgeArgsShape and BuildForgeArgs state them |
| LoadEnv.MaskValue | scripts/load-env.js:37-41 | "<empty>" for nothing, "****" up to four characters, else the first two and last two around "***" |
| LoadEnv.MaskHidesTheMiddle | scripts/load-env.js:37-41 | values that agree in their first two and last two characters are masked alike |
| LoadEnv.MissingKeys | scripts/load-env.js:68-70 | exactly the configured keys whose parsed value is absent or empty |
| LoadEnv.MissingKeysInOrder | scripts/load-env.js:68-70 | the missing keys are listed in configuration order: they are the configured keys at strictly increasing positions |
| LoadEnv.NothingMissing | scripts/load-env.js:68-75 | nothing is missing iff every setting has a non-empty value |
| LoadEnv.SetAll | scripts/load-env.js:77-88 | the reference set loop spawns at most one command per setting, and a dry run spawns nothing and succeeds |
| LoadEnv.SetAllStopsAtFirstFailure | scripts/load-env.js:77-88 | commands follow the configuration; every one before the last succeeded; a non-zero exit is the last one's; exit 0 iff every call succeeded, and then all were spawned |
| LoadEnv.SetAllStep | scripts/load-env.js:77-88 | one turn of the loop: a dry run stops with 0, a non-zero exit stops with that code after one command, otherwise the rest of the loop follows |
| LoadEnv.RunForgeVariablesSet | scripts/load-env.js:43-58 | a dry run returns 0 and spawns nothing; otherwise one command, whose missing status counts as 1 |
| LoadEnv.ExitCode | scripts/load-env.js:57 | definition of `result.status ?? 1`; RunForgeVariablesSet and SetAllStopsAtFirstFailure state its effect |
| LoadEnv.SetVariables | scripts/load-env.js:77-88 | the loop returns exactly the reference set loop's completion |
| LoadEnv.LoadEnvMain | scripts/load-env.js:60-90 | `main` step by step equals its reference outcome |
| LoadEnv.LoadEnvOutcome | scripts/load-env.js:60-90 | definition of `main` as a function of its inputs; LoadEnvMain and LoadEnvOutcomes state it |
| LoadEnv.LoadEnvOutcomes | scripts/load-env.js:60-90 | a missing key exits 1 with nothing spawned; a dry run exits 0; a real run exits 0 iff every call succeeded, else with the first failure's code |

## Left out

- HTTP, JSON parsing and authentication are not modelled. Every remote call is an input saying whether it answered 2xx, answered another status, or threw; a 2xx read returns the modelled Jira or Bitbucket state.
- Concurrency is not modelled. Two panels or two effects racing on the same issue are out; the hook's effects and handlers run one after another, and the `useIssueStatus` polling is the `Rerender` input.
- Rendering is not modelled: React, the Details, Header, Commits and Approvals components, `formatDate` and `Intl`.
- Logging is not modelled: `console` output and warnings.
- Timestamps are not modelled. `Date.now` in the audit record is dropped, so `AutoMoveRecord` holds only the target and the automatic flag.
- The characters handled are limited to ASCII: `toLowerCase`, `toUpperCase` and `trim` are modelled on ASCII only.
- Resolver registration (`src/index.ts`, `src/index.js`) and the bridge (`utils/bridge.ts`) are not part of this model. `invokeResolverSafe`'s fallback is the `StateReply` input.
- `getRepositoryConfig` (src/bitbucket.ts:218-228) only copies two configuration values into a response and is left out.
- `loadPrCommits`, `getIssueProperty` and `setIssueProperty` are single remote calls. They appear only as the replies they produce.
- The TypeScript resolvers that return `{success:false, error: toErrorMessage(e)}` from a catch are modelled as returning the thrown message. `toErrorMessage` is not modelled beyond that.
- The catch in the `transitionIssue` resolver of src/automation.js never fires in the model, because `transitionIssue` turns every failure into an answer.
- The JavaScript bitbucket module's `stripApiBase`, `getMissingConfigurationFields`, `findPrByIssueKey`, `loadPrApprovals` and `normalisePrStatus` are the same code as the TypeScript ones. Both builds use the one definition in module `Bitbucket`.
- `normalizeStatus`, `formatApprovers`, `statusToLower`, `toDisplayStatus` and `compareStatuses` of utils/index.ts are the same code as in helpers.ts. They are defined once, in module `Helpers`.
- A `Site` holds the Jira state of one issue. Its status, status category and transitions belong to that issue, while the stored flags and audit records are keyed by issue key. `Reconcile` for another key sees the same status and transitions.
- What Jira does with a transition POST is an assumption of the model, not something the program promises. A delivered POST lands the issue on the picked transition's destination name and category, and the offered transitions are not refreshed afterwards. `MovedLandsOnDestination`, `MoveIssueLandsOnDestination` and `RepeatCanMoveAgain` hold under this assumption; in particular, the second POST of `RepeatCanMoveAgain` depends on "Review" still being offered.
- Object-prototype keys in the colour tables are not modelled. A status such as "constructor" looks up the default colours here.
- `bitbucketFetch`'s thrown error is modelled as `PageFailed.message`, `DetailsFailed.message` and `CommitsFailed.message`. Its text is not rebuilt from the response.
- Parts of `scripts/load-env.js` are inputs:
  - the file system check and `dotenv.parse` are the `envFileExists` and `parsed` inputs;
  - the exit status of each `spawnSync` is the `statuses` input;
  - `shell: true` quoting is not modelled.
- The masked value computed in `runForgeVariablesSet` (scripts/load-env.js:45) is never used by the script. It is modelled by `MaskValue` but is not part of the run.
- AutomationFacts.RepeatAfterMoveIsAlready: idempotence of the engine holds only when the chosen transition matched by its destination. `RepeatCanMoveAgain` shows that a match by transition name alone can move again.
- Helpers.FormatApprovers: states the result for up to three approvers. Beyond three, it states only that the text starts with the first name, plus (by `FormatApproversShowsAtMostThree`) that later approvers do not change it.
