/** The panel's status helpers of static/overview-app/src/utils/helpers.ts: status
    normalisation, the target classifier, the issue-aware target suggestion, and the
    small display rules. */
module Helpers {
  import opened Text
  import opened Vocabulary

  /** An approver as the panel receives it (only the name is shown). */
  datatype Approver = Approver(name: string)

  /** The fields of the panel's pull request that its rules read. */
  datatype PanelPr = PanelPr(status: Option<string>, state: Option<string>, approvals: Option<int>)

  datatype StatusColors = StatusColors(bg: string, color: string)

  const OpenColors := StatusColors("#DFFCF0", "#216E4E")
  const MergedColors := StatusColors("#E8F4FF", "#0747A6")
  const DraftColors := StatusColors("#F3F0FF", "#403294")
  const ErrorColors := StatusColors("#FFECEB", "#AE2A19")
  const DefaultColors := StatusColors("#FFF7D6", "#805E00")

  /** The colour table: every pull-request status has an entry. */
  const StatusColorTable: map<string, StatusColors> :=
    map["open" := OpenColors, "merged" := MergedColors, "draft" := DraftColors,
        "declined" := ErrorColors, "closed" := ErrorColors]

  // ================================================================ normalisation

  /** `String(value || '').toLowerCase().trim()`: the lower-cased value with the white
      space at both ends cut away; absent and empty give "". */
  function NormalizeStatus(value: Option<string>): (r: string)
    ensures IsLower(r)
    ensures r == [] || (!IsSpace(r[0]) && !IsSpace(r[|r| - 1]))
    ensures !Truthy(value) ==> r == ""
  {
    ToLowerIsLower(OrEmpty(value));
    TrimKeepsLower(ToLower(OrEmpty(value)));
    Trim(ToLower(OrEmpty(value)))
  }

  /** The normalised status is the lower-cased value with the white space at both
      ends cut away. */
  lemma NormalizeStatusTrims(value: Option<string>)
    ensures exists k :: TrimmedAt(ToLower(OrEmpty(value)), NormalizeStatus(value), k)
  {
    var lower := ToLower(OrEmpty(value));
    TrimCutsWhiteSpace(lower);
    var k :| TrimmedAt(lower, Trim(lower), k);
    assert NormalizeStatus(value) == Trim(lower);
    assert TrimmedAt(lower, NormalizeStatus(value), k);
  }

  /** Normalising a normalised status changes nothing. */
  lemma NormalizeStatusIdempotent(value: Option<string>)
    ensures NormalizeStatus(Some(NormalizeStatus(value))) == NormalizeStatus(value)
  {
    var n := NormalizeStatus(value);
    ToLowerOfLower(n);
    TrimStartOfTrimmed(n);
    TrimEndOfTrimmed(n);
  }

  lemma {:induction false} LowerOfUpper(s: string)
    ensures ToLower(ToUpper(s)) == ToLower(s)
  {
    forall i | 0 <= i < |s| ensures ToLower(ToUpper(s))[i] == ToLower(s)[i] {
      assert ToUpper(s)[i] == UpperChar(s[i]);
    }
  }

  /** `compareStatuses`: equal once normalised. */
  predicate CompareStatuses(status1: Option<string>, status2: Option<string>)
  {
    NormalizeStatus(status1) == NormalizeStatus(status2)
  }

  /** The comparison ignores case, and an absent status is the empty one. */
  lemma CompareStatusesIgnoresCase(s: string)
    ensures CompareStatuses(Some(s), Some(ToUpper(s)))
    ensures CompareStatuses(Some(s), Some(ToLower(s)))
    ensures CompareStatuses(None, Some(""))
  {
    LowerOfUpper(s);
    ToLowerIsLower(s);
    ToLowerOfLower(ToLower(s));
  }

  /** `compareStatuses` is an equivalence: reflexive, symmetric and transitive. */
  lemma CompareStatusesIsEquivalence(a: Option<string>, b: Option<string>, c: Option<string>)
    ensures CompareStatuses(a, a)
    ensures CompareStatuses(a, b) ==> CompareStatuses(b, a)
    ensures CompareStatuses(a, b) && CompareStatuses(b, c) ==> CompareStatuses(a, c)
  {
  }

  /** `statusToLower`: the normalised `status` when it is non-empty, else the
      normalised `state`. */
  function StatusToLower(pr: PanelPr): (r: string)
    ensures Truthy(pr.status) ==> r == NormalizeStatus(pr.status)
    ensures !Truthy(pr.status) ==> r == NormalizeStatus(pr.state)
  {
    NormalizeStatus(Some(if Truthy(pr.status) then pr.status.value else OrEmpty(pr.state)))
  }

  /** `toDisplayStatus`: "" stays "", otherwise only the first character is upper-cased. */
  function ToDisplayStatus(status: string): (r: string)
    ensures |r| == |status|
    ensures status != "" ==> r[0] == UpperChar(status[0]) && r[1..] == status[1..]
  {
    if status == "" then "" else [UpperChar(status[0])] + status[1..]
  }

  /** The display form is the same status: it normalises back to what the status does. */
  lemma DisplayStatusNormalisesBack(status: string)
    ensures NormalizeStatus(Some(ToDisplayStatus(status))) == NormalizeStatus(Some(status))
  {
    var d := ToDisplayStatus(status);
    assert ToLower(d) == ToLower(status) by {
      forall i | 0 <= i < |status| ensures ToLower(d)[i] == ToLower(status)[i] {
        if i > 0 {
          assert d[i] == d[1..][i - 1] == status[1..][i - 1] == status[i];
        }
      }
    }
  }

  // ================================================================ approvers and colours

  function Names(approvers: seq<Approver>): (r: seq<string>)
    ensures |r| == |approvers| && forall i :: 0 <= i < |r| ==> r[i] == approvers[i].name
  {
    seq(|approvers|, i requires 0 <= i < |approvers| => approvers[i].name)
  }

  /** `formatApprovers`: "" for none, otherwise the names of the first three approvers,
      in order, joined by ", ". */
  function FormatApprovers(approvers: Option<seq<Approver>>): (r: string)
    ensures approvers.None? || approvers.value == [] ==> r == ""
    ensures approvers.Some? && |approvers.value| > 0 ==> IsPrefixOf(approvers.value[0].name, r)
    ensures approvers.Some? && 0 < |approvers.value| <= 3 ==> r == Join(Names(approvers.value), ", ")
  {
    if approvers.None? || |approvers.value| == 0 then ""
    else
      var shown := if |approvers.value| <= 3 then approvers.value else approvers.value[..3];
      assert shown[0] == approvers.value[0];
      Join(Names(shown), ", ")
  }

  /** At most three names are shown: approvers after the third never change the text. */
  lemma FormatApproversShowsAtMostThree(first: seq<Approver>, more: seq<Approver>)
    requires |first| == 3
    ensures FormatApprovers(Some(first + more)) == FormatApprovers(Some(first))
  {
    if more == [] {
      assert first + more == first;
    } else {
      assert (first + more)[..3] == first;
    }
  }

  /** `getStatusColors` of helpers.ts: a direct table lookup, with the default colours
      for anything not in the table (case and white space count). */
  function GetStatusColors(status: Option<string>): (r: StatusColors)
    ensures status.Some? && status.value in StatusColorTable ==> r == StatusColorTable[status.value]
    ensures status.None? || status.value !in StatusColorTable ==> r == DefaultColors
  {
    if status.Some? && status.value in StatusColorTable then StatusColorTable[status.value] else DefaultColors
  }

  /** Every status the server reports has its own colours here; declined and closed
      share the error colours. */
  lemma StatusColorsOfReportedStatuses(s: PrStatus)
    ensures GetStatusColors(Some(s.Name())) ==
      match s
      case Open => OpenColors
      case Merged => MergedColors
      case Draft => DraftColors
      case Declined => ErrorColors
      case Closed => ErrorColors
  {
  }

  // ================================================================ target classification

  /** `getTargetCategory`: the normalised (lower-cased AND trimmed) target classified by
      the panel's table, which adds "in review" to the in-progress keywords. */
  function TargetCategory(target: Option<string>): (r: Option<Category>)
    ensures r == FirstMatchingRule(NormalizeStatus(target), PanelRules)
  {
    var normalized := NormalizeStatus(target);
    MentionsOneOf(normalized, DoneKeyword, DoneKeyword, DoneKeyword);
    MentionsOneOf(normalized, TodoKeyword, TodoCompactKeyword, NewKeyword);
    MentionsOneOfFour(normalized, InProgressKeyword, InProgressCompactKeyword, IndeterminateKeyword, InReviewKeyword);
    FirstOfThreeRules(normalized, DoneRule, NewRule, PanelInProgressRule);
    if Contains(normalized, DoneKeyword) then Some(Done)
    else if Contains(normalized, TodoKeyword) || Contains(normalized, TodoCompactKeyword)
         || Contains(normalized, NewKeyword) then Some(New)
    else if Contains(normalized, InProgressKeyword) || Contains(normalized, InProgressCompactKeyword)
         || Contains(normalized, IndeterminateKeyword) || Contains(normalized, InReviewKeyword) then Some(Indeterminate)
    else None
  }

  /** The classifier case by case: "done" wins over everything, then the to-do
      keywords, then the in-progress keywords and "in review"; nothing else classifies. */
  lemma TargetCategoryCases(target: Option<string>)
    ensures var t := NormalizeStatus(target);
      var r := TargetCategory(target);
      && (r == Some(Done) <==> Contains(t, DoneKeyword))
      && (r == Some(New) <==>
            !Contains(t, DoneKeyword) &&
            (Contains(t, TodoKeyword) || Contains(t, TodoCompactKeyword) || Contains(t, NewKeyword)))
      && (r == Some(Indeterminate) <==>
            !Contains(t, DoneKeyword) &&
            !Contains(t, TodoKeyword) && !Contains(t, TodoCompactKeyword) && !Contains(t, NewKeyword) &&
            (Contains(t, InProgressKeyword) || Contains(t, InProgressCompactKeyword) ||
             Contains(t, IndeterminateKeyword) || Contains(t, InReviewKeyword)))
  {
    var t := NormalizeStatus(target);
    MentionsOneOf(t, DoneKeyword, DoneKeyword, DoneKeyword);
    MentionsOneOf(t, TodoKeyword, TodoCompactKeyword, NewKeyword);
    MentionsOneOfFour(t, InProgressKeyword, InProgressCompactKeyword, IndeterminateKeyword, InReviewKeyword);
    FirstOfThreeRules(t, DoneRule, NewRule, PanelInProgressRule);
  }

  /** Surrounding white space does not change the category. */
  lemma TargetCategoryIgnoresPadding(target: string)
    ensures TargetCategory(Some(" " + target + " ")) == TargetCategory(Some(target))
  {
    var lower := ToLower(" " + target + " ");
    assert lower == " " + ToLower(target) + " " by {
      assert |lower| == |target| + 2;
      forall i | 0 <= i < |lower| ensures lower[i] == (" " + ToLower(target) + " ")[i] {
        if 0 < i <= |target| {
          assert (" " + target + " ")[i] == target[i - 1];
        }
      }
    }
    var inner := ToLower(target);
    assert TrimStart(lower) == TrimStart(inner + " ") by {
      assert lower[1..] == inner + " ";
    }
    TrimEndPadding(TrimStart(inner));
    TrimStartPadding(inner);
  }

  /** A trailing space survives `TrimStart` unless everything is space. */
  lemma {:induction false} TrimStartPadding(s: string)
    ensures TrimStart(s + " ") == if TrimStart(s) == [] then [] else TrimStart(s) + " "
    decreases |s|
  {
    if |s| > 0 && IsSpace(s[0]) {
      assert (s + " ")[1..] == s[1..] + " ";
      TrimStartPadding(s[1..]);
    } else if |s| > 0 {
      assert (s + " ")[0] == s[0];
    }
  }

  lemma TrimEndPadding(s: string)
    ensures TrimEnd(s + " ") == TrimEnd(s)
  {
    assert (s + " ")[..|s|] == s;
  }

  /** The three suggested targets classify as the categories they name: "Done" as Done, */
  lemma DoneTargetClassifies()
    ensures TargetCategory(Some(TargetDone)) == Some(Done)
  {
    NormalizedLiteral(TargetDone, "done");
    DoneTargetKeywords();
    TargetCategoryCases(Some(TargetDone));
  }

  /** "To Do" as New, */
  lemma TodoTargetClassifies()
    ensures TargetCategory(Some(TargetTodo)) == Some(New)
  {
    NormalizedLiteral(TargetTodo, "to do");
    TodoTargetKeywords();
    TargetCategoryCases(Some(TargetTodo));
  }

  /** and "In Progress" as Indeterminate. */
  lemma InProgressTargetClassifies()
    ensures TargetCategory(Some(TargetInProgress)) == Some(Indeterminate)
  {
    NormalizedLiteral(TargetInProgress, "in progress");
    InProgressTargetKeywords();
    TargetCategoryCases(Some(TargetInProgress));
  }

  lemma SuggestedTargetsClassify()
    ensures TargetCategory(Some(TargetDone)) == Some(Done)
    ensures TargetCategory(Some(TargetTodo)) == Some(New)
    ensures TargetCategory(Some(TargetInProgress)) == Some(Indeterminate)
  {
    DoneTargetClassifies();
    TodoTargetClassifies();
    InProgressTargetClassifies();
  }

  lemma NormalizedLiteral(target: string, lower: string)
    requires ToLower(target) == lower && |lower| > 0 && !IsSpace(lower[0]) && !IsSpace(lower[|lower| - 1])
    ensures NormalizeStatus(Some(target)) == lower
  {
    TrimStartOfTrimmed(lower);
    TrimEndOfTrimmed(lower);
  }

  // ================================================================ suggestion

  /** `Boolean(pr.approvals && pr.approvals > 0)` */
  predicate IsApproved(pr: PanelPr)
  {
    pr.approvals.Some? && pr.approvals.value > 0
  }

  /** The suggestion rule of helpers.ts on the normalised pull-request status, its
      approval and the normalised issue category. */
  function SuggestFor(prStatus: string, approved: bool, issueCategory: string): (r: Option<string>)
  {
    if prStatus == "merged" then (if issueCategory == "done" then None else Some(TargetDone))
    else if prStatus == "declined" || prStatus == "closed" then (if issueCategory == "new" then None else Some(TargetTodo))
    else if prStatus == "open" then (if issueCategory == "indeterminate" then None else Some(TargetInProgress))
    else if prStatus == "draft" && approved then (if issueCategory == "indeterminate" then None else Some(TargetInProgress))
    else None
  }

  /** The rule case by case: merged asks for Done, declined or closed for To Do, open
      or approved draft for In Progress, each unless the issue's category already is
      that target's; nothing else is suggested. */
  lemma SuggestForCases(prStatus: string, approved: bool, issueCategory: string)
    ensures var r := SuggestFor(prStatus, approved, issueCategory);
      && (prStatus == Merged.Name() ==> r == if issueCategory == Done.Key() then None else Some(TargetDone))
      && (prStatus == Declined.Name() || prStatus == Closed.Name() ==>
            r == if issueCategory == New.Key() then None else Some(TargetTodo))
      && (prStatus == Open.Name() || (prStatus == Draft.Name() && approved) ==>
            r == if issueCategory == Indeterminate.Key() then None else Some(TargetInProgress))
      && ((prStatus != Merged.Name() && prStatus != Declined.Name() && prStatus != Closed.Name() &&
           prStatus != Open.Name() && !(prStatus == Draft.Name() && approved)) ==> r == None)
  {
  }

  /** A suggestion is one of the three targets, and never the one whose category key
      the issue's category already is. */
  lemma SuggestForShape(prStatus: string, approved: bool, issueCategory: string)
    ensures var r := SuggestFor(prStatus, approved, issueCategory);
      && (r == Some(TargetDone) ==> issueCategory != Done.Key())
      && (r == Some(TargetTodo) ==> issueCategory != New.Key())
      && (r == Some(TargetInProgress) ==> issueCategory != Indeterminate.Key())
      && (r.None? || r == Some(TargetDone) || r == Some(TargetTodo) || r == Some(TargetInProgress))
  {
    assert |TargetDone| == 4 && |TargetTodo| == 5 && |TargetInProgress| == 11;
  }

  /** `getSuggestedTarget` of helpers.ts: the rule applied to the pull request's
      normalised status and the issue's normalised category. */
  function SuggestedTarget(pr: PanelPr, currentIssueStatus: Option<string>): (r: Option<string>)
  {
    SuggestFor(StatusToLower(pr), IsApproved(pr), NormalizeStatus(currentIssueStatus))
  }

  /** A suggestion never names the category the issue is already in. */
  lemma SuggestionIsNeverCurrentCategory(pr: PanelPr, currentIssueStatus: Option<string>)
    ensures var r := SuggestedTarget(pr, currentIssueStatus);
      r.Some? ==> TargetCategory(r).Some? && TargetCategory(r).value.Key() != NormalizeStatus(currentIssueStatus)
  {
    SuggestForShape(StatusToLower(pr), IsApproved(pr), NormalizeStatus(currentIssueStatus));
    SuggestedTargetsClassify();
  }
}
