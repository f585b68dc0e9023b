/** What `transitionIssue` promises, proved about its functional model `Reconcile`:
    the classifier's precedence, the first-match transition choice, the guards that
    stop a run before any transition request, the single POST, the error texts, the
    advisory writes that never change the answer, the merge of the stored flags, and
    what a second identical call does. The lemmas hold for any classifier unless they
    name `DesiredCategoryKey`. */
module AutomationFacts {
  import opened Text
  import opened Vocabulary
  import opened Automation

  // ================================================================ classifier

  /** `getDesiredCategoryKey`, case by case: "done" wins over every other keyword,
      then the to-do keywords, then the in-progress keywords; the name is only
      lower-cased, so a keyword must occur verbatim (no trimming, no word match). */
  lemma DesiredCategoryKeyCases(targetName: string)
    ensures var lower := NormalizeLower(Some(targetName));
      var done := Contains(lower, DoneKeyword);
      var todo := Contains(lower, TodoKeyword) || Contains(lower, TodoCompactKeyword) || Contains(lower, NewKeyword);
      var progress := Contains(lower, InProgressKeyword) || Contains(lower, InProgressCompactKeyword)
        || Contains(lower, IndeterminateKeyword);
      && (DesiredCategoryKey(targetName) == Some(Done) <==> done)
      && (DesiredCategoryKey(targetName) == Some(New) <==> !done && todo)
      && (DesiredCategoryKey(targetName) == Some(Indeterminate) <==> !done && !todo && progress)
      && (DesiredCategoryKey(targetName) == None <==> !done && !todo && !progress)
  {
    var lower := NormalizeLower(Some(targetName));
    FirstOfThreeRules(lower, DoneRule, NewRule, InProgressRule);
    MentionsOneOf(lower, DoneKeyword, DoneKeyword, DoneKeyword);
    MentionsOneOf(lower, TodoKeyword, TodoCompactKeyword, NewKeyword);
    MentionsOneOf(lower, InProgressKeyword, InProgressCompactKeyword, IndeterminateKeyword);
  }

  /** The targets the panel sends are classified into the category they name:
      "Done" asks for done, */
  lemma DoneTargetAsksForDone()
    ensures DesiredCategoryKey(TargetDone) == Some(Done)
  {
    assert NormalizeLower(Some(TargetDone)) == "done";
    DoneTargetKeywords();
    DesiredCategoryKeyCases(TargetDone);
  }

  /** "To Do" asks for new, */
  lemma TodoTargetAsksForNew()
    ensures DesiredCategoryKey(TargetTodo) == Some(New)
  {
    assert NormalizeLower(Some(TargetTodo)) == "to do";
    TodoTargetKeywords();
    DesiredCategoryKeyCases(TargetTodo);
  }

  /** and "In Progress" asks for indeterminate. */
  lemma InProgressTargetAsksForIndeterminate()
    ensures DesiredCategoryKey(TargetInProgress) == Some(Indeterminate)
  {
    assert NormalizeLower(Some(TargetInProgress)) == "in progress";
    InProgressTargetKeywords();
    DesiredCategoryKeyCases(TargetInProgress);
  }

  // ================================================================ transition choice

  /** `findMatchingTransition` is a first-in-list search: it finds something exactly
      when some listed transition matches, and what it finds is the first match. */
  lemma FindMatchingTransitionIsFirstMatch(transitions: Option<seq<Transition>>, targetName: string, desired: Option<Category>)
    ensures var r := FindMatchingTransition(transitions, targetName, desired);
      var lower := NormalizeLower(Some(targetName));
      && (r.Some? <==> transitions.Some? && exists i :: 0 <= i < |transitions.value| && MatchesTarget(transitions.value[i], lower, desired))
      && (r.Some? ==>
        exists i :: 0 <= i < |transitions.value| && transitions.value[i] == r.value && MatchesTarget(r.value, lower, desired)
          && forall j :: 0 <= j < i ==> !MatchesTarget(transitions.value[j], lower, desired))
  {
    var r := FindMatchingTransition(transitions, targetName, desired);
    var lower := NormalizeLower(Some(targetName));
    if transitions.Some? {
      var k := FirstMatch(transitions.value, lower, desired);
      if k.Some? {
        assert transitions.value[k.value] == r.value;
      }
    }
  }

  /** An empty target name selects the first listed transition, if there is one. */
  lemma EmptyTargetPicksFirst(ts: seq<Transition>, desired: Option<Category>)
    requires |ts| > 0
    ensures FindMatchingTransition(Some(ts), "", desired) == Some(ts[0])
  {
    ContainsEmpty(NormalizeLower(ts[0].toName));
  }

  // ================================================================ guards

  /** The skip guard reads the stored record; the run is skipped exactly when the
      issue was read, the request is an automatic move to Done, the record was read
      and one of its two flags is set. A skipped run changes nothing and has made only
      the issue read and the record read. */
  lemma SkipGuardStopsBeforeTransitions(classify: string -> Option<Category>, site: Site, log: seq<Request>,
                                        issueKey: string, targetName: string, isAuto: bool, replies: Replies)
    ensures var run := Reconcile(classify, site, log, issueKey, targetName, isAuto, replies);
      run.response.Skipped? <==>
        replies.issue.Delivered? && IsAutoDone(isAuto, targetName) && replies.stateRead.Delivered?
        && issueKey in site.states
        && (IsSet(site.states[issueKey].autoMovedToDone) || IsSet(site.states[issueKey].manuallyMovedFromDone))
    ensures var run := Reconcile(classify, site, log, issueKey, targetName, isAuto, replies);
      run.response.Skipped? ==>
        run.response.reason == SkipReason && run.site == site && run.requests == log + [GetIssue, GetProperty(AutomationPropKey)]
  {
    assert log + [GetIssue] + [GetProperty(AutomationPropKey)] == log + [GetIssue, GetProperty(AutomationPropKey)];
  }

  /** Both `already` answers stop before the transitions are fetched: the Jira state
      is untouched and the requests are the issue read plus, for an automatic move to
      Done, the record read. The issue counts as already there exactly when the skip
      guard did not fire and `isAlreadyAtTarget` holds of its lower-cased status. */
  lemma AlreadyMakesNoTransitionCalls(classify: string -> Option<Category>, site: Site, log: seq<Request>,
                                      issueKey: string, targetName: string, isAuto: bool, replies: Replies)
    ensures var run := Reconcile(classify, site, log, issueKey, targetName, isAuto, replies);
      run.response.Already() ==>
        run.site == site
        && run.requests == log + [GetIssue] + (if IsAutoDone(isAuto, targetName) then [GetProperty(AutomationPropKey)] else [])
    ensures var run := Reconcile(classify, site, log, issueKey, targetName, isAuto, replies);
      run.response.AlreadyThere? <==>
        replies.issue.Delivered? && !run.response.Skipped?
        && IsAlreadyAtTarget(targetName, classify(targetName), NormalizeLower(site.statusName), NormalizeLower(site.statusCategory))
    ensures var run := Reconcile(classify, site, log, issueKey, targetName, isAuto, replies);
      run.response.AlreadyThere? ==>
        run.response == AlreadyThere(NormalizeLower(site.statusName), NormalizeLower(site.statusCategory))
  {
    assert log + [GetIssue] + [] == log + [GetIssue];
  }

  // ================================================================ the POST

  /** Number of POSTs in a request log. */
  function Posts(log: seq<Request>): (r: nat)
  {
    if log == [] then 0 else (if log[0].PostTransition? then 1 else 0) + Posts(log[1..])
  }

  lemma {:induction false} PostsAppend(a: seq<Request>, b: seq<Request>)
    ensures Posts(a + b) == Posts(a) + Posts(b)
  {
    if a == [] {
      assert a + b == b;
    } else {
      assert (a + b)[1..] == a[1..] + b;
      PostsAppend(a[1..], b);
    }
  }

  lemma PostsSnoc(a: seq<Request>, x: Request)
    ensures Posts(a + [x]) == Posts(a) + (if x.PostTransition? then 1 else 0)
  {
    PostsAppend(a, [x]);
    assert [x][1..] == [];
  }

  /** Steps 4 to 9 issue at most one POST, and answer `moved` only after a 2xx one. */
  lemma MoveIssuePostsOnce(site: Site, log: seq<Request>, issueKey: string, targetName: string, isAuto: bool,
                           desired: Option<Category>, replies: Replies)
    ensures var run := MoveIssue(site, log, issueKey, targetName, isAuto, desired, replies);
      Posts(run.requests) <= Posts(log) + 1
      && (run.response == Moved ==> replies.post.Delivered? && Posts(run.requests) == Posts(log) + 1)
  {
    var log1 := log + [GetTransitions];
    PostsSnoc(log, GetTransitions);
    var found := FindMatchingTransition(site.transitions, targetName, desired);
    if found.Some? {
      var log2 := log1 + [PostTransition(found.value.id)];
      PostsSnoc(log1, PostTransition(found.value.id));
      var log3 := log2 + [PutProperty(AutoMovePropKey)];
      PostsSnoc(log2, PutProperty(AutoMovePropKey));
      var moved := site.(statusName := found.value.toName, statusCategory := found.value.toCategory);
      var audited := if replies.auditWrite.Delivered? then
        moved.(autoMoves := moved.autoMoves[issueKey := AutoMoveRecord(targetName, isAuto)]) else moved;
      var log4 := log3 + [GetProperty(AutomationPropKey)];
      PostsSnoc(log3, GetProperty(AutomationPropKey));
      PostsSnoc(log4, PutProperty(AutomationPropKey));
      assert Posts(RecordAutoDone(audited, log3, issueKey, replies).1) == Posts(log3);
    }
  }

  /** One call issues at most one POST, and it answers `moved` only when that POST
      was issued and came back 2xx. */
  lemma AtMostOnePost(classify: string -> Option<Category>, site: Site, log: seq<Request>,
                      issueKey: string, targetName: string, isAuto: bool, replies: Replies)
    ensures var run := Reconcile(classify, site, log, issueKey, targetName, isAuto, replies);
      Posts(run.requests) <= Posts(log) + 1
    ensures var run := Reconcile(classify, site, log, issueKey, targetName, isAuto, replies);
      run.response == Moved ==> replies.post.Delivered? && Posts(run.requests) == Posts(log) + 1
  {
    var log1 := log + [GetIssue];
    PostsSnoc(log, GetIssue);
    var log2 := if IsAutoDone(isAuto, targetName) then log1 + [GetProperty(AutomationPropKey)] else log1;
    PostsSnoc(log1, GetProperty(AutomationPropKey));
    MoveIssuePostsOnce(site, log2, issueKey, targetName, isAuto, classify(targetName), replies);
  }

  lemma MoveIssueLandsOnDestination(site: Site, log: seq<Request>, issueKey: string, targetName: string, isAuto: bool,
                                    desired: Option<Category>, replies: Replies)
    requires MoveIssue(site, log, issueKey, targetName, isAuto, desired, replies).response == Moved
    ensures var run := MoveIssue(site, log, issueKey, targetName, isAuto, desired, replies);
      var found := FindMatchingTransition(site.transitions, targetName, desired);
      found.Some? && run.site.statusName == found.value.toName && run.site.statusCategory == found.value.toCategory
      && run.site.transitions == site.transitions
  {
    var found := FindMatchingTransition(site.transitions, targetName, desired);
    var moved := site.(statusName := found.value.toName, statusCategory := found.value.toCategory);
    var audited := if replies.auditWrite.Delivered? then
      moved.(autoMoves := moved.autoMoves[issueKey := AutoMoveRecord(targetName, isAuto)]) else moved;
    var log3 := log + [GetTransitions] + [PostTransition(found.value.id)] + [PutProperty(AutoMovePropKey)];
    var after := RecordAutoDone(audited, log3, issueKey, replies).0;
    assert after.statusName == audited.statusName && after.statusCategory == audited.statusCategory;
  }

  /** A committed move leaves the issue in the chosen transition's destination. */
  lemma MovedLandsOnDestination(classify: string -> Option<Category>, site: Site, log: seq<Request>,
                                issueKey: string, targetName: string, isAuto: bool, replies: Replies)
    requires Reconcile(classify, site, log, issueKey, targetName, isAuto, replies).response == Moved
    ensures var run := Reconcile(classify, site, log, issueKey, targetName, isAuto, replies);
      var found := FindMatchingTransition(site.transitions, targetName, classify(targetName));
      found.Some? && run.site.statusName == found.value.toName && run.site.statusCategory == found.value.toCategory
      && run.site.transitions == site.transitions
  {
    var log1 := log + [GetIssue];
    var log2 := if IsAutoDone(isAuto, targetName) then log1 + [GetProperty(AutomationPropKey)] else log1;
    MoveIssueLandsOnDestination(site, log2, issueKey, targetName, isAuto, classify(targetName), replies);
  }

  /** Which answer a call gives: `moved` exactly when every step up to the POST went
      through, and each failure carries its own text. */
  lemma OutcomeCases(classify: string -> Option<Category>, site: Site, log: seq<Request>,
                     issueKey: string, targetName: string, isAuto: bool, replies: Replies)
    ensures var run := Reconcile(classify, site, log, issueKey, targetName, isAuto, replies);
      var stopped := run.response.Already();
      var found := FindMatchingTransition(site.transitions, targetName, classify(targetName));
      && (run.response == Moved <==>
           replies.issue.Delivered? && !stopped && replies.transitions.Delivered? && found.Some? && replies.post.Delivered?)
      && (!replies.issue.Delivered? ==> run.response == Failed(FailureText(replies.issue, "Failed to fetch issue: ")))
      && (replies.issue.Delivered? && !stopped && !replies.transitions.Delivered? ==>
           run.response == Failed(FailureText(replies.transitions, "Failed to fetch transitions: ")))
      && (replies.issue.Delivered? && !stopped && replies.transitions.Delivered? && found.None? ==>
           run.response == Failed(NoTransitionText(targetName)))
      && (replies.issue.Delivered? && !stopped && replies.transitions.Delivered? && found.Some? && !replies.post.Delivered? ==>
           run.response == Failed(FailureText(replies.post, "Transition failed: ")))
      && (run.response.Failed? ==> run.site == site)
  {
  }

  lemma MoveIssueIgnoresAdvisoryWrites(site: Site, log: seq<Request>, issueKey: string, targetName: string, isAuto: bool,
                                        desired: Option<Category>, replies: Replies, other: Replies)
    requires other.transitions == replies.transitions && other.post == replies.post
    ensures var run := MoveIssue(site, log, issueKey, targetName, isAuto, desired, replies);
      var alt := MoveIssue(site, log, issueKey, targetName, isAuto, desired, other);
      alt.response == run.response
      && alt.site.statusName == run.site.statusName && alt.site.statusCategory == run.site.statusCategory
  {
    if replies.transitions.Delivered? && replies.post.Delivered? {
      match FindMatchingTransition(site.transitions, targetName, desired)
      case None =>
      case Some(t) =>
        var moved := site.(statusName := t.toName, statusCategory := t.toCategory);
        var log3 := log + [GetTransitions] + [PostTransition(t.id)] + [PutProperty(AutoMovePropKey)];
        var audited := if replies.auditWrite.Delivered? then
          moved.(autoMoves := moved.autoMoves[issueKey := AutoMoveRecord(targetName, isAuto)]) else moved;
        var auditedAlt := if other.auditWrite.Delivered? then
          moved.(autoMoves := moved.autoMoves[issueKey := AutoMoveRecord(targetName, isAuto)]) else moved;
        RecordAutoDoneKeepsStatus(audited, log3, issueKey, replies);
        RecordAutoDoneKeepsStatus(auditedAlt, log3, issueKey, other);
    }
  }

  /** Recording the automatic move never touches the issue's status. */
  lemma RecordAutoDoneKeepsStatus(site: Site, log: seq<Request>, issueKey: string, replies: Replies)
    ensures RecordAutoDone(site, log, issueKey, replies).0.statusName == site.statusName
    ensures RecordAutoDone(site, log, issueKey, replies).0.statusCategory == site.statusCategory
  {
  }

  /** The advisory writes (the audit record, the re-read and the write of the flag
      record) can fail in any way without changing the answer or the issue's status. */
  lemma AdvisoryWritesDoNotChangeResponse(classify: string -> Option<Category>, site: Site, log: seq<Request>,
                                          issueKey: string, targetName: string, isAuto: bool, replies: Replies,
                                          auditWrite: Reply, stateReread: Reply, stateWrite: Reply)
    ensures var run := Reconcile(classify, site, log, issueKey, targetName, isAuto, replies);
      var other := Reconcile(classify, site, log, issueKey, targetName, isAuto,
                             replies.(auditWrite := auditWrite, stateReread := stateReread, stateWrite := stateWrite));
      other.response == run.response
      && other.site.statusName == run.site.statusName && other.site.statusCategory == run.site.statusCategory
  {
    var other := replies.(auditWrite := auditWrite, stateReread := stateReread, stateWrite := stateWrite);
    var log1 := log + [GetIssue];
    var log2 := if IsAutoDone(isAuto, targetName) then log1 + [GetProperty(AutomationPropKey)] else log1;
    MoveIssueIgnoresAdvisoryWrites(site, log2, issueKey, targetName, isAuto, classify(targetName), replies, other);
  }

  // ================================================================ the flag record

  /** The flag record changes only after a committed automatic move to Done whose
      re-read did not throw and whose write went through; it then holds the record
      read back (or `{}`) with `autoMovedToDone` set and the other flags kept, and no
      other issue's record changes. */
  lemma AutoDoneMergesFlags(classify: string -> Option<Category>, site: Site, log: seq<Request>,
                            issueKey: string, targetName: string, isAuto: bool, replies: Replies)
    ensures var run := Reconcile(classify, site, log, issueKey, targetName, isAuto, replies);
      var written := run.response == Moved && IsAutoDone(isAuto, targetName)
        && !replies.stateReread.Thrown? && replies.stateWrite.Delivered?;
      var previous := match StoredState(site, issueKey, replies.stateReread)
        case Some(s) => s
        case None => EmptyState;
      && (!written ==> run.site.states == site.states)
      && (written ==>
           && issueKey in run.site.states
           && run.site.states[issueKey].autoMovedToDone == Some(true)
           && run.site.states[issueKey].autoMovedToToDo == previous.autoMovedToToDo
           && run.site.states[issueKey].manuallyMovedFromDone == previous.manuallyMovedFromDone)
      && (forall k :: k != issueKey ==>
           (k in run.site.states <==> k in site.states) && (k in site.states ==> run.site.states[k] == site.states[k]))
  {
  }

  /** An automatic move to Done happens at most once: after one that moved and
      recorded its flag, the next automatic call for the same target is skipped as soon
      as it can read the record, and issues no further POST. */
  lemma AutoDoneAtMostOnce(classify: string -> Option<Category>, site: Site, log: seq<Request>,
                           issueKey: string, targetName: string, first: Replies, second: Replies)
    requires IsAutoDone(true, targetName)
    requires Reconcile(classify, site, log, issueKey, targetName, true, first).response == Moved
    requires !first.stateReread.Thrown? && first.stateWrite.Delivered?
    requires second.issue.Delivered? && second.stateRead.Delivered?
    ensures var run1 := Reconcile(classify, site, log, issueKey, targetName, true, first);
      var run2 := Reconcile(classify, run1.site, run1.requests, issueKey, targetName, true, second);
      run2.response == Skipped(SkipReason) && run2.site == run1.site && Posts(run2.requests) == Posts(run1.requests)
  {
    var run1 := Reconcile(classify, site, log, issueKey, targetName, true, first);
    AutoDoneMergesFlags(classify, site, log, issueKey, targetName, true, first);
    SkipGuardStopsBeforeTransitions(classify, run1.site, run1.requests, issueKey, targetName, true, second);
    PostsSnoc(run1.requests, GetIssue);
    PostsSnoc(run1.requests + [GetIssue], GetProperty(AutomationPropKey));
    assert run1.requests + [GetIssue] + [GetProperty(AutomationPropKey)]
        == run1.requests + [GetIssue, GetProperty(AutomationPropKey)];
  }

  // ================================================================ repeating a call

  /** The transition was chosen for where it leads: its destination category is the
      desired one, or its destination name contains the (non-empty) target. */
  predicate MatchedByDestination(t: Transition, targetName: string, desired: Option<Category>)
  {
    var lower := NormalizeLower(Some(targetName));
    (desired.Some? && t.toCategory == Some(desired.value.Key()))
    || (lower != "" && Contains(NormalizeLower(t.toName), lower))
  }

  lemma CategoryKeysAreLower(c: Category)
    ensures NormalizeLower(Some(c.Key())) == c.Key()
  {
    ToLowerOfLower(c.Key());
  }

  /** Repeating a call that moved the issue through a transition chosen for where it
      leads makes no second move: the issue now satisfies `isAlreadyAtTarget` (or the
      one-shot guard), so the repeat answers `already` and issues no POST. */
  lemma RepeatAfterMoveIsAlready(classify: string -> Option<Category>, site: Site, log: seq<Request>,
                                 issueKey: string, targetName: string, isAuto: bool, first: Replies, second: Replies)
    requires Reconcile(classify, site, log, issueKey, targetName, isAuto, first).response == Moved
    requires var found := FindMatchingTransition(site.transitions, targetName, classify(targetName));
      found.Some? && MatchedByDestination(found.value, targetName, classify(targetName))
    requires second.issue.Delivered?
    ensures var run1 := Reconcile(classify, site, log, issueKey, targetName, isAuto, first);
      var run2 := Reconcile(classify, run1.site, run1.requests, issueKey, targetName, isAuto, second);
      run2.response.Already() && run2.site == run1.site && Posts(run2.requests) == Posts(run1.requests)
  {
    var run1 := Reconcile(classify, site, log, issueKey, targetName, isAuto, first);
    var t := FindMatchingTransition(site.transitions, targetName, classify(targetName)).value;
    var desired := classify(targetName);
    MovedLandsOnDestination(classify, site, log, issueKey, targetName, isAuto, first);
    if desired.Some? && t.toCategory == Some(desired.value.Key()) {
      CategoryKeysAreLower(desired.value);
    }
    assert IsAlreadyAtTarget(targetName, desired, NormalizeLower(run1.site.statusName), NormalizeLower(run1.site.statusCategory));
    AlreadyMakesNoTransitionCalls(classify, run1.site, run1.requests, issueKey, targetName, isAuto, second);
    PostsSnoc(run1.requests, GetIssue);
    PostsSnoc(run1.requests + [GetIssue], GetProperty(AutomationPropKey));
  }

  /** "Review" names no category. */
  lemma ReviewIsNotACategory()
    ensures NormalizeLower(Some("Review")) == "review" && DesiredCategoryKey("Review") == None
  {
    var lower := NormalizeLower(Some("Review"));
    assert lower == "review";
    NotContainsByFirstChar(lower, DoneKeyword);
    NotContainsByFirstChar(lower, TodoKeyword);
    NotContainsByFirstChar(lower, TodoCompactKeyword);
    NotContainsByFirstChar(lower, NewKeyword);
    NotContainsLonger(lower, InProgressKeyword);
    NotContainsLonger(lower, InProgressCompactKeyword);
    NotContainsLonger(lower, IndeterminateKeyword);
    DesiredCategoryKeyCases("Review");
  }

  const ReviewTransition := Transition("5", Some("Review"), Some("Under check"), Some("indeterminate"))
  const AllDelivered := Replies(Delivered, Delivered, Delivered, Delivered, Delivered, Delivered, Delivered)

  /** From any status whose name does not mention "review", a manual move to
      "Review" POSTs the "Review" transition and lands on "Under check". */
  lemma ReviewMoves(site: Site, log: seq<Request>)
    requires site.transitions == Some([ReviewTransition])
    requires !Contains(NormalizeLower(site.statusName), "review")
    ensures var run := Reconcile(DesiredCategoryKey, site, log, "KEY-1", "Review", false, AllDelivered);
      run.response == Moved && run.site.statusName == Some("Under check") && run.site.transitions == site.transitions
      && Posts(run.requests) == Posts(log) + 1
  {
    ReviewIsNotACategory();
    assert OccursAt(NormalizeLower(ReviewTransition.name), "review", 0);
    assert FindMatchingTransition(Some([ReviewTransition]), "Review", None) == Some(ReviewTransition);
    assert !IsAlreadyAtTarget("Review", None, NormalizeLower(site.statusName), NormalizeLower(site.statusCategory));
    OutcomeCases(DesiredCategoryKey, site, log, "KEY-1", "Review", false, AllDelivered);
    MovedLandsOnDestination(DesiredCategoryKey, site, log, "KEY-1", "Review", false, AllDelivered);
    AtMostOnePost(DesiredCategoryKey, site, log, "KEY-1", "Review", false, AllDelivered);
  }

  /** Without that condition a repeat can move the issue again: "Review" is not a
      category keyword, the transition is picked by its own name "Review", and it leads
      to "Under check", whose name does not contain "review"; the second call finds the
      same transition and POSTs it a second time. */
  lemma RepeatCanMoveAgain(site: Site, log: seq<Request>)
    requires site.statusName == Some("To Do") && site.transitions == Some([ReviewTransition])
    ensures var run1 := Reconcile(DesiredCategoryKey, site, log, "KEY-1", "Review", false, AllDelivered);
      var run2 := Reconcile(DesiredCategoryKey, run1.site, run1.requests, "KEY-1", "Review", false, AllDelivered);
      run1.response == Moved && run2.response == Moved && Posts(run2.requests) == Posts(log) + 2
  {
    ToDoIsNotReview();
    ReviewMoves(site, log);
    var run1 := Reconcile(DesiredCategoryKey, site, log, "KEY-1", "Review", false, AllDelivered);
    UnderCheckIsNotReview();
    ReviewMoves(run1.site, run1.requests);
  }
  lemma ToDoIsNotReview() ensures !Contains(NormalizeLower(Some("To Do")), "review") {
    assert NormalizeLower(Some("To Do")) == "to do";
    NotContainsByFirstChar("to do", "review");
  }
  lemma UnderCheckIsNotReview() ensures !Contains(NormalizeLower(Some("Under check")), "review") {
    var lower := NormalizeLower(Some("Under check"));
    assert lower == "under check";
    forall j | 0 <= j <= |lower| ensures !OccursAt(lower, "review", j) {
      if j + 6 <= 11 {
        assert lower[j..j + 6][0] == lower[j];
        assert lower[j..j + 6][1] == lower[j + 1];
      }
    }
  }
}
