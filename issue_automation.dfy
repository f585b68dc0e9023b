/** The issue panel's automation hook (static/overview-app/src/hooks/useIssueAutomation.tsx):
    it loads the stored automation flags, notices a manual move away from Done, moves
    the issue automatically once the pull request is merged, declined or closed, and
    handles the "Move to" and "Restore to Done" buttons.

    React state becomes the fields of a class; each effect or handler is a method. A
    resolver call is modelled by its reply, passed in; the calls made are kept in a
    ghost log. Each method is tied to a pure step function on a snapshot of the
    fields, and the properties are proved about those functions. */
module IssueAutomationHook {
  import opened Text
  import opened Vocabulary
  import opened Automation
  import opened Helpers

  const RestoredDoneMessage := "Issue restored to Done"

  datatype MessageKind = SuccessMessage | ErrorMessage

  /** What the status line under the header shows. */
  datatype TransitionMessage = TransitionMessage(kind: MessageKind, text: string)

  /** `invokeResolver('transitionIssue', …)`: the response's `success` and `moved`
      (absent when the response lacks them), or the message of the error it threw. */
  datatype InvokeReply = Answered(success: Option<bool>, moved: Option<bool>) | InvokeThrew(message: string)

  /** `invokeResolverSafe('getAutomationState', …)`: never throws; a failure answers
      with its fallback `{success:false, state:{}}`. */
  datatype StateReply = StateReply(success: bool, state: Option<AutomationState>)

  /** A resolver call the hook makes. */
  datatype Call =
    | LoadCall(issueKey: string)
    | SaveCall(issueKey: string, state: AutomationState)
    | TransitionCall(issueKey: string, targetName: string, isAuto: bool)

  /** The hook's props and state at one moment. */
  datatype Hook = Hook(
    issueKey: Option<string>,
    pr: Option<PanelPr>,
    suggestedTarget: Option<string>,
    currentIssueStatus: Option<string>,
    automationState: AutomationState,
    transitionLoading: bool,
    transitionMessage: Option<TransitionMessage>,
    manuallyRemovedFromDone: bool,
    restoringFromDone: bool)

  /** The outcome of one effect or handler: the hook afterwards and the calls it made. */
  datatype Step = Step(hook: Hook, calls: seq<Call>)

  /** Between effects and handlers neither spinner is on. */
  predicate Settled(h: Hook)
  {
    !h.transitionLoading && !h.restoringFromDone
  }

  // ================================================================ step functions

  /** `saveState`: nothing without an issue key; otherwise one save call, and the local
      flags replaced only when the save succeeded. */
  function SaveStep(h: Hook, state: AutomationState, saved: bool): (r: Step)
  {
    if !Truthy(h.issueKey) then Step(h, [])
    else Step(if saved then h.(automationState := state) else h, [SaveCall(h.issueKey.value, state)])
  }

  /** The loading effect: with an issue key and a pull request, read the stored flags;
      a successful read replaces the local flags (`{}` when none are stored). */
  function LoadStep(h: Hook, reply: StateReply): (r: Step)
  {
    if !Truthy(h.issueKey) || h.pr.None? then Step(h, [])
    else if !reply.success then Step(h, [LoadCall(h.issueKey.value)])
    else Step(h.(automationState := if reply.state.Some? then reply.state.value else EmptyState), [LoadCall(h.issueKey.value)])
  }

  /** `currentIssueStatus.toLowerCase() === 'done'` */
  predicate IsCurrentlyDone(h: Hook)
    requires h.currentIssueStatus.Some?
  {
    ToLower(h.currentIssueStatus.value) == Done.Key()
  }

  /** The manual-override effect: an issue that was moved to Done automatically and is
      no longer there has been moved away by hand; the first time, that is persisted. */
  function ManualOverrideStep(h: Hook, saved: bool): (r: Step)
  {
    if !Truthy(h.issueKey) || !IsSet(h.automationState.autoMovedToDone) || !Truthy(h.currentIssueStatus) then Step(h, [])
    else if IsCurrentlyDone(h) then Step(h, [])
    else if !IsSet(h.automationState.manuallyMovedFromDone) then
      var save := SaveStep(h, h.automationState.(manuallyMovedFromDone := Some(true)), saved);
      Step(save.hook.(manuallyRemovedFromDone := true), save.calls)
    else Step(h.(manuallyRemovedFromDone := true), [])
  }

  /** `res?.moved !== undefined ? res.moved : res?.success` */
  function MovedFlag(success: Option<bool>, moved: Option<bool>): (r: Option<bool>)
  {
    if moved.Some? then moved else success
  }

  /** The automatic move applies to this hook: a key, a pull request and a suggestion,
      a merged, declined or closed pull request, and no flag that rules it out. */
  predicate AutoTransitionApplies(h: Hook)
  {
    && Truthy(h.issueKey) && h.pr.Some? && Truthy(h.suggestedTarget)
    && var prStatus := StatusToLower(h.pr.value);
       var isMerged := prStatus == Merged.Name();
       var isDeclinedOrClosed := prStatus == Declined.Name() || prStatus == Closed.Name();
       && (isMerged || isDeclinedOrClosed)
       && !(isMerged && IsSet(h.automationState.manuallyMovedFromDone))
       && !(isMerged && IsSet(h.automationState.autoMovedToDone))
       && !(isDeclinedOrClosed && IsSet(h.automationState.autoMovedToToDo))
  }

  /** The fresh flag record after an automatic move: exactly one flag. */
  function AutoMovedState(isMerged: bool): (r: AutomationState)
  {
    if isMerged then AutomationState(Some(true), None, None) else AutomationState(None, Some(true), None)
  }

  /** The automatic move itself: one automatic transition call; on a confirmed move,
      the fresh flag record is saved and the panel follows the issue. */
  function AutoMoveStep(h: Hook, isMerged: bool, reply: InvokeReply, saved: bool): (r: Step)
    requires Truthy(h.issueKey) && Truthy(h.suggestedTarget)
  {
    var target := h.suggestedTarget.value;
    var call := TransitionCall(h.issueKey.value, target, true);
    if reply.Answered? && IsSet(reply.success) && IsSet(MovedFlag(reply.success, reply.moved)) then
      var save := SaveStep(h, AutoMovedState(isMerged), saved);
      var after := save.hook.(
        transitionMessage := Some(TransitionMessage(SuccessMessage, "Issue automatically moved to " + target)),
        currentIssueStatus := Some(ToLower(target)),
        manuallyRemovedFromDone := false,
        transitionLoading := false);
      Step(after, [call] + save.calls)
    else Step(h.(transitionLoading := false), [call])
  }

  /** The auto-transition effect. */
  function AutoTransitionStep(h: Hook, reply: InvokeReply, saved: bool): (r: Step)
  {
    if !AutoTransitionApplies(h) then Step(h, [])
    else AutoMoveStep(h, StatusToLower(h.pr.value) == Merged.Name(), reply, saved)
  }

  /** `handleMoveToDone`: move the issue to the suggested target on request. */
  function MoveToTargetStep(h: Hook, reply: InvokeReply): (r: Step)
  {
    if !Truthy(h.issueKey) || !Truthy(h.suggestedTarget) then Step(h, [])
    else
      var key := h.issueKey.value;
      var target := h.suggestedTarget.value;
      var cleared := h.(transitionMessage := None, transitionLoading := false);
      var after :=
        match reply
        case InvokeThrew(message) => cleared.(transitionMessage := Some(TransitionMessage(ErrorMessage, message)))
        case Answered(success, _) =>
          if IsSet(success) then
            cleared.(transitionMessage := Some(TransitionMessage(SuccessMessage, "Issue " + key + " moved to " + target)),
                     currentIssueStatus := Some(ToLower(target)))
          else cleared;
      Step(after, [TransitionCall(key, target, false)])
  }

  /** `handleRestoreToDone`: move the issue back to Done and clear the manual flag. */
  function RestoreStep(h: Hook, reply: InvokeReply, saved: bool): (r: Step)
  {
    if !Truthy(h.issueKey) then Step(h, [])
    else
      var key := h.issueKey.value;
      var call := TransitionCall(key, TargetDone, false);
      var cleared := h.(transitionMessage := None, restoringFromDone := false);
      match reply
      case InvokeThrew(message) => Step(cleared.(transitionMessage := Some(TransitionMessage(ErrorMessage, message))), [call])
      case Answered(success, _) =>
        if !IsSet(success) then Step(cleared, [call])
        else
          var save := SaveStep(cleared, h.automationState.(manuallyMovedFromDone := Some(false)), saved);
          var after := save.hook.(
            currentIssueStatus := Some(Done.Key()),
            manuallyRemovedFromDone := false,
            transitionMessage := Some(TransitionMessage(SuccessMessage, RestoredDoneMessage)));
          Step(after, [call] + save.calls)
  }

  /** The panel's restore banner (Details): shown after a manual move away from Done
      of a merged pull request's issue, unless the issue is back in Done or was just
      restored. */
  predicate ShowRestoreNotification(h: Hook)
  {
    && h.manuallyRemovedFromDone
    && h.pr.Some? && StatusToLower(h.pr.value) == Merged.Name()
    && ToLower(OrEmpty(h.currentIssueStatus)) != Done.Key()
    && !(h.transitionMessage.Some? && h.transitionMessage.value.text == RestoredDoneMessage)
  }

  // ================================================================ properties

  /** `saveState` does nothing without an issue key, and adopts the saved record only
      when the save resolver reports success. */
  lemma SaveStateAdoptsOnlyOnSuccess(h: Hook, state: AutomationState, saved: bool)
    ensures var r := SaveStep(h, state, saved);
      && (!Truthy(h.issueKey) ==> r == Step(h, []))
      && (Truthy(h.issueKey) ==> r.calls == [SaveCall(h.issueKey.value, state)])
      && r.hook.automationState == (if Truthy(h.issueKey) && saved then state else h.automationState)
      && r.hook == h.(automationState := r.hook.automationState)
  {
  }

  /** The loading effect reads the stored flags exactly when there are an issue key and
      a pull request; a successful read adopts the stored record (`{}` when none is
      stored), a failed one leaves the local flags as they were, and nothing else in
      the hook changes. */
  lemma LoadAdoptsStoredFlags(h: Hook, reply: StateReply)
    ensures var r := LoadStep(h, reply);
      && (!Truthy(h.issueKey) || h.pr.None? ==> r == Step(h, []))
      && (Truthy(h.issueKey) && h.pr.Some? ==> r.calls == [LoadCall(h.issueKey.value)])
      && r.hook.automationState
           == (if Truthy(h.issueKey) && h.pr.Some? && reply.success
               then (if reply.state.Some? then reply.state.value else EmptyState)
               else h.automationState)
      && r.hook == h.(automationState := r.hook.automationState)
  {
  }

  /** The manual-override effect persists the manual flag, keeping the other flags,
      exactly when the issue was auto-moved to Done, its status is known and not done,
      and the flag is not yet set. */
  lemma ManualOverridePersistsOnce(h: Hook, saved: bool)
    ensures var r := ManualOverrideStep(h, saved);
      && (r.calls != [] <==>
            Truthy(h.issueKey) && IsSet(h.automationState.autoMovedToDone) && Truthy(h.currentIssueStatus)
            && !IsCurrentlyDone(h) && !IsSet(h.automationState.manuallyMovedFromDone))
      && (r.calls != [] ==>
            r.calls == [SaveCall(h.issueKey.value, h.automationState.(manuallyMovedFromDone := Some(true)))])
      && (r.calls != [] && saved ==>
            r.hook.automationState.manuallyMovedFromDone == Some(true)
            && r.hook.automationState.autoMovedToDone == h.automationState.autoMovedToDone
            && r.hook.automationState.autoMovedToToDo == h.automationState.autoMovedToToDo)
  {
  }

  /** Whenever the issue was auto-moved to Done and its known status is not done, the
      hook marks it as manually removed, even when the stored flag was already set;
      otherwise the effect changes nothing. */
  lemma ManualOverrideMarksRemoval(h: Hook, saved: bool)
    ensures var r := ManualOverrideStep(h, saved);
      var applies := Truthy(h.issueKey) && IsSet(h.automationState.autoMovedToDone) && Truthy(h.currentIssueStatus)
                     && !IsCurrentlyDone(h);
      && (applies ==> r.hook.manuallyRemovedFromDone)
      && (!applies ==> r == Step(h, []))
  {
  }

  /** The automatic move asks for a transition exactly when it applies, and then first
      of all; otherwise it changes nothing at all. */
  lemma AutoTransitionGuard(h: Hook, reply: InvokeReply, saved: bool)
    ensures var r := AutoTransitionStep(h, reply, saved);
      && (AutoTransitionApplies(h) ==> |r.calls| > 0 && r.calls[0] == TransitionCall(h.issueKey.value, h.suggestedTarget.value, true))
      && (!AutoTransitionApplies(h) ==> r == Step(h, []))
  {
  }

  /** It applies only to a merged pull request whose issue was neither moved to Done
      automatically nor moved away from it by hand, or to a declined or closed one whose
      issue was not moved to To Do automatically; never to an open or draft one. */
  lemma AutoTransitionAppliesCases(h: Hook)
    requires Truthy(h.issueKey) && h.pr.Some? && Truthy(h.suggestedTarget)
    ensures var s := StatusToLower(h.pr.value);
      var flags := h.automationState;
      AutoTransitionApplies(h) <==>
        || (s == Merged.Name() && !IsSet(flags.manuallyMovedFromDone) && !IsSet(flags.autoMovedToDone))
        || ((s == Declined.Name() || s == Closed.Name()) && !IsSet(flags.autoMovedToToDo))
  {
    assert Merged.Name()[0] != Declined.Name()[0] && Merged.Name()[0] != Closed.Name()[0];
  }

  /** After a successful automatic move (`moved` defaulting to `success`), the hook
      saves a FRESH record with exactly the one flag for the move, shows the automatic
      message, takes the lower-cased target as the issue status and clears the manual
      removal; the spinner is off at the end whatever happened. */
  lemma AutoMoveSuccess(h: Hook, isMerged: bool, reply: InvokeReply, saved: bool)
    requires Truthy(h.issueKey) && Truthy(h.suggestedTarget)
    requires reply.Answered? && reply.success == Some(true) && (reply.moved.None? || reply.moved == Some(true))
    ensures var r := AutoMoveStep(h, isMerged, reply, saved);
      && r.calls == [TransitionCall(h.issueKey.value, h.suggestedTarget.value, true),
                     SaveCall(h.issueKey.value, AutoMovedState(isMerged))]
      && r.hook.automationState == (if saved then AutoMovedState(isMerged) else h.automationState)
      && r.hook.currentIssueStatus == Some(ToLower(h.suggestedTarget.value))
      && !r.hook.manuallyRemovedFromDone && !r.hook.transitionLoading
      && r.hook.transitionMessage == Some(TransitionMessage(SuccessMessage, "Issue automatically moved to " + h.suggestedTarget.value))
      && r.hook.pr == h.pr && r.hook.issueKey == h.issueKey && r.hook.suggestedTarget == h.suggestedTarget
  {
    var call := TransitionCall(h.issueKey.value, h.suggestedTarget.value, true);
    var save := SaveStep(h, AutoMovedState(isMerged), saved);
    assert save.calls == [SaveCall(h.issueKey.value, AutoMovedState(isMerged))];
    assert [call] + save.calls == [call, SaveCall(h.issueKey.value, AutoMovedState(isMerged))];
    assert AutoMoveStep(h, isMerged, reply, saved).calls == [call] + save.calls;
  }

  /** The saved record holds exactly one flag: the one for the move just made. */
  lemma AutoMovedStateHasOneFlag(isMerged: bool)
    ensures var s := AutoMovedState(isMerged);
      && (IsSet(s.autoMovedToDone) <==> isMerged)
      && (IsSet(s.autoMovedToToDo) <==> !isMerged)
      && s.manuallyMovedFromDone.None?
      && (isMerged ==> s.autoMovedToToDo.None?) && (!isMerged ==> s.autoMovedToDone.None?)
  {
  }

  /** A move that was not confirmed (a failure, `moved:false`, or a thrown error)
      leaves everything but the spinner as it was. */
  lemma AutoTransitionFailureKeepsState(h: Hook, reply: InvokeReply, saved: bool)
    requires AutoTransitionApplies(h)
    requires reply.InvokeThrew? || !IsSet(reply.success) || reply.moved == Some(false)
    ensures AutoTransitionStep(h, reply, saved) ==
      Step(h.(transitionLoading := false), [TransitionCall(h.issueKey.value, h.suggestedTarget.value, true)])
  {
  }

  /** Once an automatic move has been saved, running the effect again with the same
      props asks for nothing: the saved flag rules the move out. */
  lemma AutoTransitionIsOneShot(h: Hook, reply: InvokeReply, reply2: InvokeReply)
    requires AutoTransitionApplies(h)
    requires reply.Answered? && reply.success == Some(true) && (reply.moved.None? || reply.moved == Some(true))
    ensures AutoTransitionStep(AutoTransitionStep(h, reply, true).hook, reply2, true).calls == []
  {
    var isMerged := StatusToLower(h.pr.value) == Merged.Name();
    AutoMoveSuccess(h, isMerged, reply, true);
    var h2 := AutoTransitionStep(h, reply, true).hook;
    assert h2.automationState == AutoMovedState(isMerged);
    assert !AutoTransitionApplies(h2);
  }

  /** `handleMoveToDone` is a no-op without a key or a target; otherwise it makes one
      non-automatic transition call, and ends with the spinner off and a message that
      is the success text (and the lower-cased target as status), the error text, or
      none at all. */
  lemma MoveToTargetOutcome(h: Hook, reply: InvokeReply)
    ensures var r := MoveToTargetStep(h, reply);
      && (!Truthy(h.issueKey) || !Truthy(h.suggestedTarget) ==> r == Step(h, []))
      && (Truthy(h.issueKey) && Truthy(h.suggestedTarget) ==>
           && r.calls == [TransitionCall(h.issueKey.value, h.suggestedTarget.value, false)]
           && !r.hook.transitionLoading
           && r.hook.automationState == h.automationState
           && (reply.Answered? && IsSet(reply.success) ==>
                r.hook.transitionMessage == Some(TransitionMessage(SuccessMessage, "Issue " + h.issueKey.value + " moved to " + h.suggestedTarget.value))
                && r.hook.currentIssueStatus == Some(ToLower(h.suggestedTarget.value)))
           && (reply.Answered? && !IsSet(reply.success) ==>
                r.hook.transitionMessage.None? && r.hook.currentIssueStatus == h.currentIssueStatus)
           && (reply.InvokeThrew? ==>
                r.hook.transitionMessage == Some(TransitionMessage(ErrorMessage, reply.message))
                && r.hook.currentIssueStatus == h.currentIssueStatus))
  {
  }

  /** A successful restore asks for a non-automatic move to Done, saves the flags with
      the manual flag cleared and the automatic flag kept, sets the status to done,
      clears the manual removal and says so; whatever happens, the restore spinner
      ends off. */
  lemma RestoreOutcome(h: Hook, reply: InvokeReply, saved: bool)
    requires Truthy(h.issueKey)
    ensures var r := RestoreStep(h, reply, saved);
      && |r.calls| > 0 && r.calls[0] == TransitionCall(h.issueKey.value, TargetDone, false)
      && !r.hook.restoringFromDone
      && (reply.Answered? && IsSet(reply.success) ==>
           && r.calls == [TransitionCall(h.issueKey.value, TargetDone, false),
                          SaveCall(h.issueKey.value, h.automationState.(manuallyMovedFromDone := Some(false)))]
           && r.hook.currentIssueStatus == Some("done")
           && !r.hook.manuallyRemovedFromDone
           && r.hook.transitionMessage == Some(TransitionMessage(SuccessMessage, RestoredDoneMessage))
           && (saved ==> r.hook.automationState.autoMovedToDone == h.automationState.autoMovedToDone
                         && r.hook.automationState.manuallyMovedFromDone == Some(false)))
      && (!(reply.Answered? && IsSet(reply.success)) ==>
           r.hook.automationState == h.automationState && r.hook.currentIssueStatus == h.currentIssueStatus
           && r.hook.manuallyRemovedFromDone == h.manuallyRemovedFromDone)
  {
  }

  /** A successful restore hides the restore banner. */
  lemma RestoreHidesNotification(h: Hook, reply: InvokeReply, saved: bool)
    requires Truthy(h.issueKey) && reply.Answered? && IsSet(reply.success)
    ensures !ShowRestoreNotification(RestoreStep(h, reply, saved).hook)
  {
  }

  /** No effect leaves a spinner on: saving, loading and the manual-override effect, */
  lemma EffectsStaySettled(h: Hook, stateReply: StateReply, state: AutomationState, saved: bool)
    requires Settled(h)
    ensures Settled(SaveStep(h, state, saved).hook)
    ensures Settled(LoadStep(h, stateReply).hook)
    ensures Settled(ManualOverrideStep(h, saved).hook)
  {
  }

  /** the automatic move, whether or not it is confirmed, */
  lemma AutoTransitionStaysSettled(h: Hook, reply: InvokeReply, saved: bool)
    requires Settled(h)
    ensures Settled(AutoTransitionStep(h, reply, saved).hook)
  {
    if AutoTransitionApplies(h) {
      var isMerged := StatusToLower(h.pr.value) == Merged.Name();
      assert AutoTransitionStep(h, reply, saved) == AutoMoveStep(h, isMerged, reply, saved);
    }
  }

  /** and the two click handlers. */
  lemma HandlersStaySettled(h: Hook, reply: InvokeReply, saved: bool)
    requires Settled(h)
    ensures Settled(MoveToTargetStep(h, reply).hook)
    ensures Settled(RestoreStep(h, reply, saved).hook)
  {
  }

  // ================================================================ the hook

  /** The hook's state, with its props as fields that `Rerender` updates. */
  class IssueAutomation {
    var issueKey: Option<string>
    var pr: Option<PanelPr>
    var suggestedTarget: Option<string>
    var currentIssueStatus: Option<string>
    var automationState: AutomationState
    var transitionLoading: bool
    var transitionMessage: Option<TransitionMessage>
    var manuallyRemovedFromDone: bool
    var restoringFromDone: bool
    ghost var calls: seq<Call>

    function Snapshot(): (r: Hook)
      reads this
    {
      Hook(issueKey, pr, suggestedTarget, currentIssueStatus, automationState, transitionLoading,
           transitionMessage, manuallyRemovedFromDone, restoringFromDone)
    }

    /** The first render: no flags, no message, no spinner. */
    constructor (issueKey: Option<string>, pr: Option<PanelPr>, suggestedTarget: Option<string>,
                 currentIssueStatus: Option<string>)
      ensures Snapshot() == Hook(issueKey, pr, suggestedTarget, currentIssueStatus, EmptyState, false, None, false, false)
      ensures Settled(Snapshot()) && calls == []
    {
      this.issueKey := issueKey;
      this.pr := pr;
      this.suggestedTarget := suggestedTarget;
      this.currentIssueStatus := currentIssueStatus;
      automationState := EmptyState;
      transitionLoading := false;
      transitionMessage := None;
      manuallyRemovedFromDone := false;
      restoringFromDone := false;
      calls := [];
    }

    /** New props (and a polled issue status) from the parent; the state is kept. */
    method Rerender(issueKey: Option<string>, pr: Option<PanelPr>, suggestedTarget: Option<string>,
                    currentIssueStatus: Option<string>)
      modifies this
      ensures Snapshot() == old(Snapshot()).(issueKey := issueKey, pr := pr, suggestedTarget := suggestedTarget,
                                            currentIssueStatus := currentIssueStatus)
      ensures calls == old(calls)
    {
      this.issueKey := issueKey;
      this.pr := pr;
      this.suggestedTarget := suggestedTarget;
      this.currentIssueStatus := currentIssueStatus;
    }

    method SaveState(state: AutomationState, saved: bool)
      modifies this
      ensures Snapshot() == SaveStep(old(Snapshot()), state, saved).hook
      ensures calls == old(calls) + SaveStep(old(Snapshot()), state, saved).calls
    {
      if !Truthy(issueKey) {
        return;
      }
      calls := calls + [SaveCall(issueKey.value, state)];
      if saved {
        automationState := state;
      }
    }

    method LoadAutomationState(reply: StateReply)
      modifies this
      ensures Snapshot() == LoadStep(old(Snapshot()), reply).hook
      ensures calls == old(calls) + LoadStep(old(Snapshot()), reply).calls
    {
      if !Truthy(issueKey) || pr.None? {
        return;
      }
      calls := calls + [LoadCall(issueKey.value)];
      if reply.success {
        automationState := if reply.state.Some? then reply.state.value else EmptyState;
      }
    }

    method ManualOverrideEffect(saved: bool)
      modifies this
      ensures Snapshot() == ManualOverrideStep(old(Snapshot()), saved).hook
      ensures calls == old(calls) + ManualOverrideStep(old(Snapshot()), saved).calls
    {
      if !Truthy(issueKey) || !IsSet(automationState.autoMovedToDone) || !Truthy(currentIssueStatus) {
        return;
      }
      var isCurrentlyDone := ToLower(currentIssueStatus.value) == Done.Key();
      if !isCurrentlyDone && !IsSet(automationState.manuallyMovedFromDone) {
        var newState := automationState.(manuallyMovedFromDone := Some(true));
        SaveState(newState, saved);
        manuallyRemovedFromDone := true;
      }
      if !isCurrentlyDone {
        manuallyRemovedFromDone := true;
      }
    }

    method AutoTransitionEffect(reply: InvokeReply, saved: bool)
      modifies this
      ensures Snapshot() == AutoTransitionStep(old(Snapshot()), reply, saved).hook
      ensures calls == old(calls) + AutoTransitionStep(old(Snapshot()), reply, saved).calls
    {
      if !Truthy(issueKey) || pr.None? || !Truthy(suggestedTarget) {
        return;
      }
      var prStatus := StatusToLower(pr.value);
      var isMerged := prStatus == Merged.Name();
      var isDeclinedOrClosed := prStatus == Declined.Name() || prStatus == Closed.Name();
      if !isMerged && !isDeclinedOrClosed {
        return;
      }
      if isMerged && IsSet(automationState.manuallyMovedFromDone) {
        return;
      }
      if isMerged && IsSet(automationState.autoMovedToDone) {
        return;
      }
      if isDeclinedOrClosed && IsSet(automationState.autoMovedToToDo) {
        return;
      }
      assert AutoTransitionApplies(Snapshot());
      MoveAutomatically(isMerged, reply, saved);
    }

    /** The body of `autoTransition` once its guards have passed. */
    method MoveAutomatically(isMerged: bool, reply: InvokeReply, saved: bool)
      requires Truthy(issueKey) && Truthy(suggestedTarget)
      modifies this
      ensures Snapshot() == AutoMoveStep(old(Snapshot()), isMerged, reply, saved).hook
      ensures calls == old(calls) + AutoMoveStep(old(Snapshot()), isMerged, reply, saved).calls
    {
      transitionLoading := true;
      var target := suggestedTarget.value;
      calls := calls + [TransitionCall(issueKey.value, target, true)];
      if reply.Answered? {
        var moved := MovedFlag(reply.success, reply.moved);
        if IsSet(reply.success) && IsSet(moved) {
          SaveState(AutoMovedState(isMerged), saved);
          transitionMessage := Some(TransitionMessage(SuccessMessage, "Issue automatically moved to " + target));
          currentIssueStatus := Some(ToLower(target));
          manuallyRemovedFromDone := false;
        }
      }
      transitionLoading := false;
    }

    method HandleMoveToDone(reply: InvokeReply)
      modifies this
      ensures Snapshot() == MoveToTargetStep(old(Snapshot()), reply).hook
      ensures calls == old(calls) + MoveToTargetStep(old(Snapshot()), reply).calls
    {
      if !Truthy(issueKey) || !Truthy(suggestedTarget) {
        return;
      }
      transitionLoading := true;
      transitionMessage := None;
      var key := issueKey.value;
      var target := suggestedTarget.value;
      calls := calls + [TransitionCall(key, target, false)];
      match reply {
        case InvokeThrew(message) =>
          transitionMessage := Some(TransitionMessage(ErrorMessage, message));
        case Answered(success, _) =>
          if IsSet(success) {
            transitionMessage := Some(TransitionMessage(SuccessMessage, "Issue " + key + " moved to " + target));
            currentIssueStatus := Some(ToLower(target));
          }
      }
      transitionLoading := false;
    }

    method HandleRestoreToDone(reply: InvokeReply, saved: bool)
      modifies this
      ensures Snapshot() == RestoreStep(old(Snapshot()), reply, saved).hook
      ensures calls == old(calls) + RestoreStep(old(Snapshot()), reply, saved).calls
    {
      if !Truthy(issueKey) {
        return;
      }
      restoringFromDone := true;
      transitionMessage := None;
      var key := issueKey.value;
      calls := calls + [TransitionCall(key, TargetDone, false)];
      match reply {
        case InvokeThrew(message) =>
          transitionMessage := Some(TransitionMessage(ErrorMessage, message));
        case Answered(success, _) =>
          if IsSet(success) {
            var newState := automationState.(manuallyMovedFromDone := Some(false));
            SaveState(newState, saved);
            currentIssueStatus := Some(Done.Key());
            manuallyRemovedFromDone := false;
            transitionMessage := Some(TransitionMessage(SuccessMessage, RestoredDoneMessage));
          }
      }
      restoringFromDone := false;
    }
  }
}
