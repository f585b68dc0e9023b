/** The server side of the status reconciliation (src/automation.ts): classify the
    requested target, refuse repeated automatic moves to Done, short-circuit when the
    issue is already there, pick the first matching workflow transition, execute it,
    and keep the per-issue automation flags up to date.

    Every remote call (Jira issue, transitions, issue properties) is modelled by a
    `Reply`: the call came back 2xx, came back with another status, or threw. What a
    2xx call returns is read from the modelled Jira state, a `Site`. */
module Automation {
  import opened Text
  import opened Vocabulary

  // ================================================================ data

  /** The per-issue flag record stored in the issue property store. Each flag is
      optional, as in the stored JSON. */
  datatype AutomationState = AutomationState(
    autoMovedToDone: Option<bool>,
    autoMovedToToDo: Option<bool>,
    manuallyMovedFromDone: Option<bool>)

  /** `{}` */
  const EmptyState := AutomationState(None, None, None)

  /** JavaScript truthiness of an optional flag. */
  predicate IsSet(flag: Option<bool>)
  {
    flag == Some(true)
  }

  /** A workflow transition as the transitions API lists it; `to` is flattened into
      the destination's name and status category key. */
  datatype Transition = Transition(
    id: string,
    name: Option<string>,
    toName: Option<string>,
    toCategory: Option<string>)

  /** The advisory audit record written after every committed transition (its
      timestamp is not modelled). */
  datatype AutoMoveRecord = AutoMoveRecord(target: string, isAuto: bool)

  /** The Jira state the engine reads and writes: the issue's status, the transitions
      available from it, and the two issue properties, keyed by issue key. */
  datatype Site = Site(
    statusName: Option<string>,
    statusCategory: Option<string>,
    transitions: Option<seq<Transition>>,
    states: map<string, AutomationState>,
    autoMoves: map<string, AutoMoveRecord>)

  /** How one remote call ends. */
  datatype Reply = Delivered | Rejected(status: nat, body: string) | Thrown(message: string)

  /** The fate of each remote call `transitionIssue` may make, in call order. */
  datatype Replies = Replies(
    issue: Reply,
    stateRead: Reply,
    transitions: Reply,
    post: Reply,
    auditWrite: Reply,
    stateReread: Reply,
    stateWrite: Reply)

  /** The remote requests, as a log. */
  datatype Request =
    | GetIssue
    | GetProperty(property: string)
    | PutProperty(property: string)
    | GetTransitions
    | PostTransition(id: string)

  /** The TransitionResponse shapes `transitionIssue` returns. */
  datatype TransitionResponse =
    | Moved                                                   // {success:true, moved:true}
    | Skipped(reason: string)                                 // {success:true, moved:false, already:true, reason}
    | AlreadyThere(currentStatus: string, currentCategory: string) // {success:true, moved:false, already:true, ...}
    | Failed(error: string)                                   // {success:false, error}
  {
    predicate Success() { !Failed? }
    predicate Already() { Skipped? || AlreadyThere? }
  }

  /** One run of the engine: what it returned, the Jira state afterwards, and the
      requests it made. */
  datatype Run = Run(response: TransitionResponse, site: Site, requests: seq<Request>)

  const AutomationPropKey := "overview-app.automationState"
  const AutoMovePropKey := "overview-app.autoMove"
  const SkipReason := "auto-move disabled after first run or manual change"

  // ================================================================ pure rules

  /** `String(value || '').toLowerCase()` */
  function NormalizeLower(value: Option<string>): (r: string)
    ensures |r| == |OrEmpty(value)| && IsLower(r)
    ensures forall i :: 0 <= i < |r| ==> r[i] == LowerChar(OrEmpty(value)[i])
  {
    ToLowerIsLower(OrEmpty(value));
    ToLower(OrEmpty(value))
  }

  /** The status category a target name asks for: "done" first, then the to-do
      keywords, then the in-progress keywords; the name is lower-cased, not trimmed. */
  function DesiredCategoryKey(targetName: string): (r: Option<Category>)
    ensures r == FirstMatchingRule(NormalizeLower(Some(targetName)), ServerRules)
  {
    var targetLower := NormalizeLower(Some(targetName));
    MentionsOneOf(targetLower, DoneKeyword, DoneKeyword, DoneKeyword);
    MentionsOneOf(targetLower, TodoKeyword, TodoCompactKeyword, NewKeyword);
    MentionsOneOf(targetLower, InProgressKeyword, InProgressCompactKeyword, IndeterminateKeyword);
    FirstOfThreeRules(targetLower, DoneRule, NewRule, InProgressRule);
    if Contains(targetLower, DoneKeyword) then Some(Done)
    else if Contains(targetLower, TodoKeyword) || Contains(targetLower, TodoCompactKeyword)
         || Contains(targetLower, NewKeyword) then Some(New)
    else if Contains(targetLower, InProgressKeyword) || Contains(targetLower, InProgressCompactKeyword)
         || Contains(targetLower, IndeterminateKeyword) then Some(Indeterminate)
    else None
  }

  /** The request is an automatic move whose target mentions "done". */
  predicate IsAutoDone(isAuto: bool, targetName: string)
  {
    isAuto && Contains(NormalizeLower(Some(targetName)), DoneKeyword)
  }

  /** The one-shot guard: an automatic move to Done is refused once the stored state
      records a previous automatic move to Done or a manual move away from it. */
  predicate ShouldSkipAutoDoneMove(isAuto: bool, targetName: string, state: AutomationState)
  {
    if !isAuto then false
    else if !Contains(NormalizeLower(Some(targetName)), DoneKeyword) then false
    else IsSet(state.autoMovedToDone) || IsSet(state.manuallyMovedFromDone)
  }

  /** The issue already is where the target points: same category, or the current
      status name contains the lower-cased target. */
  predicate IsAlreadyAtTarget(targetName: string, desired: Option<Category>, currentStatus: string, currentCategory: string)
  {
    var targetLower := NormalizeLower(Some(targetName));
    (desired.Some? && currentCategory == desired.value.Key())
    || (targetLower != "" && Contains(currentStatus, targetLower))
  }

  /** The three-way OR a transition is tested with. */
  predicate MatchesTarget(t: Transition, targetLower: string, desired: Option<Category>)
  {
    (desired.Some? && t.toCategory == Some(desired.value.Key()))
    || Contains(NormalizeLower(t.toName), targetLower)
    || Contains(NormalizeLower(t.name), targetLower)
  }

  /** `Array.prototype.find` over the transitions with MatchesTarget. */
  function FirstMatch(ts: seq<Transition>, targetLower: string, desired: Option<Category>): (r: Option<nat>)
    ensures r.Some? ==> r.value < |ts| && MatchesTarget(ts[r.value], targetLower, desired)
    ensures forall j :: 0 <= j < |ts| && (r.None? || j < r.value) ==> !MatchesTarget(ts[j], targetLower, desired)
  {
    if ts == [] then None
    else if MatchesTarget(ts[0], targetLower, desired) then Some(0)
    else match FirstMatch(ts[1..], targetLower, desired)
      case None => None
      case Some(k) => Some(k + 1)
  }

  /** The transition `findMatchingTransition` picks: the first in list order that
      matches; none when the list is absent or nothing matches. */
  function FindMatchingTransition(transitions: Option<seq<Transition>>, targetName: string, desired: Option<Category>): (r: Option<Transition>)
  {
    if transitions.None? then None
    else match FirstMatch(transitions.value, NormalizeLower(Some(targetName)), desired)
      case None => None
      case Some(i) => Some(transitions.value[i])
  }

  /** The error text a failed call turns into: the status after `prefix` for a non-2xx
      reply, the exception's message for a throw. */
  function FailureText(reply: Reply, prefix: string): (r: string)
    requires !reply.Delivered?
  {
    match reply
    case Rejected(status, _) => prefix + NatToString(status)
    case Thrown(message) => message
  }

  function NoTransitionText(targetName: string): (r: string)
  {
    "No \"" + targetName + "\" transition available for this issue"
  }

  /** `getIssueProperty(issueKey, AUTOMATION_PROP_KEY)` when it is `ok`: the stored
      record. A non-2xx reply (including the 404 of a never-written property) and a
      throw both give None. */
  function StoredState(site: Site, issueKey: string, reply: Reply): (r: Option<AutomationState>)
  {
    if reply.Delivered? && issueKey in site.states then Some(site.states[issueKey]) else None
  }

  // ================================================================ the engine, as a function

  /** The automation-state bookkeeping after a committed automatic move to Done:
      re-read the record, set `autoMovedToDone`, write it back. A throwing re-read
      skips the write; a failed write leaves the store as it was. `log` is the request
      log so far; the result extends it. */
  function RecordAutoDone(site: Site, log: seq<Request>, issueKey: string, replies: Replies): (r: (Site, seq<Request>))
  {
    var log1 := log + [GetProperty(AutomationPropKey)];
    if replies.stateReread.Thrown? then (site, log1)
    else
      var current := match StoredState(site, issueKey, replies.stateReread)
        case Some(s) => s
        case None => EmptyState;
      var merged := current.(autoMovedToDone := Some(true));
      var after := if replies.stateWrite.Delivered? then site.(states := site.states[issueKey := merged]) else site;
      (after, log1 + [PutProperty(AutomationPropKey)])
  }

  /** Steps 4 to 9 of `transitionIssue`: fetch the transitions, pick one, POST it,
      then the advisory writes. */
  function MoveIssue(site: Site, log: seq<Request>, issueKey: string, targetName: string, isAuto: bool,
                     desired: Option<Category>, replies: Replies): (r: Run)
  {
    var log1 := log + [GetTransitions];
    if !replies.transitions.Delivered? then
      Run(Failed(FailureText(replies.transitions, "Failed to fetch transitions: ")), site, log1)
    else match FindMatchingTransition(site.transitions, targetName, desired)
      case None => Run(Failed(NoTransitionText(targetName)), site, log1)
      case Some(t) =>
        var log2 := log1 + [PostTransition(t.id)];
        if !replies.post.Delivered? then
          Run(Failed(FailureText(replies.post, "Transition failed: ")), site, log2)
        else
          var moved := site.(statusName := t.toName, statusCategory := t.toCategory);
          var audited := if replies.auditWrite.Delivered? then
            moved.(autoMoves := moved.autoMoves[issueKey := AutoMoveRecord(targetName, isAuto)]) else moved;
          var log3 := log2 + [PutProperty(AutoMovePropKey)];
          if IsAutoDone(isAuto, targetName) then
            var (after, log4) := RecordAutoDone(audited, log3, issueKey, replies);
            Run(Moved, after, log4)
          else Run(Moved, audited, log3)
  }

  /** `transitionIssue(issueKey, targetName, isAuto)` as a function of the Jira state,
      the request log so far and the fate of each remote call; `classify` is the
      target classifier of the variant (src/automation.ts or src/automation.js). */
  function Reconcile(classify: string -> Option<Category>, site: Site, log: seq<Request>, issueKey: string,
                     targetName: string, isAuto: bool, replies: Replies): (r: Run)
  {
    var log1 := log + [GetIssue];
    if !replies.issue.Delivered? then
      Run(Failed(FailureText(replies.issue, "Failed to fetch issue: ")), site, log1)
    else
      var currentStatus := NormalizeLower(site.statusName);
      var currentCategory := NormalizeLower(site.statusCategory);
      var log2 := if IsAutoDone(isAuto, targetName) then log1 + [GetProperty(AutomationPropKey)] else log1;
      var stored := StoredState(site, issueKey, replies.stateRead);
      if IsAutoDone(isAuto, targetName) && stored.Some? && ShouldSkipAutoDoneMove(isAuto, targetName, stored.value) then
        Run(Skipped(SkipReason), site, log2)
      else
        var desired := classify(targetName);
        if IsAlreadyAtTarget(targetName, desired, currentStatus, currentCategory) then
          Run(AlreadyThere(currentStatus, currentCategory), site, log2)
        else
          MoveIssue(site, log2, issueKey, targetName, isAuto, desired, replies)
  }

  // ================================================================ the read-only resolvers

  /** Result of the `getIssueStatus` resolver; `currentStatus` carries the category key. */
  datatype StatusResponse = StatusResponse(success: bool, currentStatus: Option<string>, error: Option<string>)

  /** Result of the `getAutomationState` resolver. */
  datatype StateResponse = StateResponse(success: bool, state: Option<AutomationState>, error: Option<string>)

  /** The `getIssueStatus` resolver: the issue's lower-cased status category key. */
  function GetIssueStatus(site: Site, issueKey: Option<string>, reply: Reply): (r: StatusResponse)
    ensures !Truthy(issueKey) ==> r == StatusResponse(false, None, Some("issueKey is required"))
    ensures Truthy(issueKey) && reply.Delivered? ==> r.success && r.currentStatus == Some(NormalizeLower(site.statusCategory))
    ensures Truthy(issueKey) && reply.Rejected? ==> !r.success && r.error == Some("Failed to fetch issue: " + NatToString(reply.status))
    ensures Truthy(issueKey) && reply.Thrown? ==> !r.success && r.error == Some(reply.message)
  {
    if !Truthy(issueKey) then StatusResponse(false, None, Some("issueKey is required"))
    else if reply.Delivered? then StatusResponse(true, Some(NormalizeLower(site.statusCategory)), None)
    else StatusResponse(false, None, Some(FailureText(reply, "Failed to fetch issue: ")))
  }

  /** The `getAutomationState` resolver: a failed or empty read is a successful null. */
  function GetAutomationState(site: Site, issueKey: Option<string>, reply: Reply): (r: StateResponse)
    ensures !Truthy(issueKey) ==> r == StateResponse(false, None, Some("issueKey is required"))
    ensures Truthy(issueKey) && !reply.Thrown? ==>
      r.success && r.state == StoredState(site, issueKey.value, reply)
    ensures Truthy(issueKey) && reply.Thrown? ==> r == StateResponse(false, None, Some(reply.message))
  {
    if !Truthy(issueKey) then StateResponse(false, None, Some("issueKey is required"))
    else if reply.Thrown? then StateResponse(false, None, Some(reply.message))
    else StateResponse(true, StoredState(site, issueKey.value, reply), None)
  }

  // ================================================================ the engine, step by step

  /** The Jira instance the resolvers talk to, with the state they change. */
  class JiraSite {
    var statusName: Option<string>
    var statusCategory: Option<string>
    var transitions: Option<seq<Transition>>
    var states: map<string, AutomationState>
    var autoMoves: map<string, AutoMoveRecord>
    /** Every remote request made so far, in order. */
    ghost var requests: seq<Request>

    constructor (site: Site)
      ensures Snapshot() == site && requests == []
    {
      statusName, statusCategory, transitions := site.statusName, site.statusCategory, site.transitions;
      states, autoMoves := site.states, site.autoMoves;
      requests := [];
    }

    function Snapshot(): (r: Site)
      reads this
    {
      Site(statusName, statusCategory, transitions, states, autoMoves)
    }

    /** `loadIssueStatus`: the lower-cased status name and category, or the text of the
        error it throws. */
    method LoadIssueStatus(reply: Reply) returns (loaded: Option<(string, string)>, error: string)
      modifies this`requests
      ensures requests == old(requests) + [GetIssue]
      ensures reply.Delivered? ==> loaded == Some((NormalizeLower(statusName), NormalizeLower(statusCategory)))
      ensures !reply.Delivered? ==> loaded.None? && error == FailureText(reply, "Failed to fetch issue: ")
    {
      requests := requests + [GetIssue];
      error := "";
      if reply.Delivered? {
        loaded := Some((NormalizeLower(statusName), NormalizeLower(statusCategory)));
      } else {
        loaded := None;
        error := FailureText(reply, "Failed to fetch issue: ");
      }
    }

    /** `getIssueProperty(issueKey, AUTOMATION_PROP_KEY)`: the stored record when the
        read is `ok`; `threw` when the call itself throws. */
    method ReadAutomationState(issueKey: string, reply: Reply) returns (existing: Option<AutomationState>, threw: bool)
      modifies this`requests
      ensures requests == old(requests) + [GetProperty(AutomationPropKey)]
      ensures existing == StoredState(Snapshot(), issueKey, reply) && threw == reply.Thrown?
    {
      requests := requests + [GetProperty(AutomationPropKey)];
      threw := reply.Thrown?;
      existing := None;
      if reply.Delivered? && issueKey in states {
        existing := Some(states[issueKey]);
      }
    }

    /** `transitionIssue`, following the source's steps and early returns. */
    method TransitionIssue(classify: string -> Option<Category>, issueKey: string, targetName: string,
                           isAuto: bool, replies: Replies) returns (response: TransitionResponse)
      modifies this
      ensures var run := Reconcile(classify, old(Snapshot()), old(requests), issueKey, targetName, isAuto, replies);
        response == run.response && Snapshot() == run.site && requests == run.requests
    {
      var loaded, failure := LoadIssueStatus(replies.issue);
      if loaded.None? {
        return Failed(failure);
      }
      var (currentStatus, currentCategory) := loaded.value;

      if isAuto && Contains(NormalizeLower(Some(targetName)), DoneKeyword) {
        var existing, _ := ReadAutomationState(issueKey, replies.stateRead);
        if existing.Some? {
          var state := existing.value;
          if ShouldSkipAutoDoneMove(isAuto, targetName, state) {
            return Skipped(SkipReason);
          }
        }
      }

      var desired := classify(targetName);
      if IsAlreadyAtTarget(targetName, desired, currentStatus, currentCategory) {
        return AlreadyThere(currentStatus, currentCategory);
      }
      response := ExecuteTransition(issueKey, targetName, isAuto, desired, replies);
    }

    /** Steps 4 to 9 of `transitionIssue`: fetch, pick, POST, then the advisory writes. */
    method ExecuteTransition(issueKey: string, targetName: string, isAuto: bool, desired: Option<Category>,
                             replies: Replies) returns (response: TransitionResponse)
      modifies this
      ensures var run := MoveIssue(old(Snapshot()), old(requests), issueKey, targetName, isAuto, desired, replies);
        response == run.response && Snapshot() == run.site && requests == run.requests
    {
      requests := requests + [GetTransitions];
      if !replies.transitions.Delivered? {
        return Failed(FailureText(replies.transitions, "Failed to fetch transitions: "));
      }
      var found := FindMatchingTransition(transitions, targetName, desired);
      if found.None? {
        return Failed(NoTransitionText(targetName));
      }

      requests := requests + [PostTransition(found.value.id)];
      if !replies.post.Delivered? {
        return Failed(FailureText(replies.post, "Transition failed: "));
      }
      statusName, statusCategory := found.value.toName, found.value.toCategory;

      // advisory audit record: a failure is only logged
      requests := requests + [PutProperty(AutoMovePropKey)];
      if replies.auditWrite.Delivered? {
        autoMoves := autoMoves[issueKey := AutoMoveRecord(targetName, isAuto)];
      }

      if isAuto && Contains(NormalizeLower(Some(targetName)), DoneKeyword) {
        PersistAutoDone(issueKey, replies);
      }
      return Moved;
    }

    /** Step 8: merge `autoMovedToDone: true` into the stored record; every failure is
        swallowed. */
    method PersistAutoDone(issueKey: string, replies: Replies)
      modifies this
      ensures (Snapshot(), requests) == RecordAutoDone(old(Snapshot()), old(requests), issueKey, replies)
    {
      var existing, threw := ReadAutomationState(issueKey, replies.stateReread);
      if !threw {
        var currentState := if existing.Some? then existing.value else EmptyState;
        var newState := currentState.(autoMovedToDone := Some(true));
        requests := requests + [PutProperty(AutomationPropKey)];
        if replies.stateWrite.Delivered? {
          states := states[issueKey := newState];
        }
      }
    }

    /** The `transitionIssue` resolver of src/automation.ts: both arguments are required. */
    method ResolveTransitionIssue(issueKey: Option<string>, targetName: Option<string>, isAuto: Option<bool>,
                                  replies: Replies) returns (response: TransitionResponse)
      modifies this
      ensures !Truthy(issueKey) || !Truthy(targetName) ==>
        response == Failed("issueKey and targetName are required") && Snapshot() == old(Snapshot())
        && requests == old(requests)
      ensures Truthy(issueKey) && Truthy(targetName) ==>
        var run := Reconcile(DesiredCategoryKey, old(Snapshot()), old(requests), issueKey.value, targetName.value,
                             isAuto == Some(true), replies);
        response == run.response && Snapshot() == run.site && requests == run.requests
    {
      if !Truthy(issueKey) || !Truthy(targetName) {
        return Failed("issueKey and targetName are required");
      }
      response := TransitionIssue(DesiredCategoryKey, issueKey.value, targetName.value, isAuto == Some(true), replies);
    }

    /** The `saveAutomationState` resolver: overwrites the whole record, no merge. */
    method SaveAutomationState(issueKey: Option<string>, state: Option<AutomationState>, reply: Reply)
      returns (success: bool, error: Option<string>)
      modifies this
      ensures statusName == old(statusName) && statusCategory == old(statusCategory)
      ensures transitions == old(transitions) && autoMoves == old(autoMoves)
      ensures !Truthy(issueKey) || state.None? ==>
        !success && error == Some("issueKey and state are required") && states == old(states) && requests == old(requests)
      ensures Truthy(issueKey) && state.Some? ==> requests == old(requests) + [PutProperty(AutomationPropKey)]
      ensures Truthy(issueKey) && state.Some? && reply.Delivered? ==>
        success && states == old(states)[issueKey.value := state.value]
      ensures Truthy(issueKey) && state.Some? && reply.Rejected? ==>
        !success && states == old(states) &&
        error == Some("Failed to save automation state: " + NatToString(reply.status) + " " + reply.body)
      ensures Truthy(issueKey) && state.Some? && reply.Thrown? ==>
        !success && states == old(states) && error == Some(reply.message)
    {
      if !Truthy(issueKey) || state.None? {
        return false, Some("issueKey and state are required");
      }
      requests := requests + [PutProperty(AutomationPropKey)];
      match reply
      case Delivered =>
        states := states[issueKey.value := state.value];
        success, error := true, None;
      case Rejected(status, body) =>
        success, error := false, Some("Failed to save automation state: " + NatToString(status) + " " + body);
      case Thrown(message) =>
        success, error := false, Some(message);
    }
  }
}
