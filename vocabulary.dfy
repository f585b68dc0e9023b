/** The fixed vocabulary shared by the server and the panel: Jira status categories,
    normalised pull-request statuses, the keywords that classify a target name, and
    the target names the panel suggests. */
module Vocabulary {
  import opened Text

  /** Jira's coarse workflow buckets. */
  datatype Category = New | Indeterminate | Done
  {
    /** The category key as Jira reports it. */
    function Key(): (r: string)
    {
      match this
      case New => "new"
      case Indeterminate => "indeterminate"
      case Done => "done"
    }
  }

  /** The closed set of pull-request statuses the server reports to the panel. */
  datatype PrStatus = Open | Merged | Draft | Declined | Closed
  {
    function Name(): (r: string)
    {
      match this
      case Open => "open"
      case Merged => "merged"
      case Draft => "draft"
      case Declined => "declined"
      case Closed => "closed"
    }
  }

  const DoneKeyword := "done"
  const TodoKeyword := "to do"
  const TodoCompactKeyword := "todo"
  const NewKeyword := "new"
  const InProgressKeyword := "in progress"
  const InProgressCompactKeyword := "inprogress"
  const IndeterminateKeyword := "indeterminate"
  const InReviewKeyword := "in review"

  /** The target names the panel suggests. */
  const TargetDone := "Done"
  const TargetTodo := "To Do"
  const TargetInProgress := "In Progress"

  /** One step of a keyword classifier: a category and the keywords that select it. */
  datatype Rule = Rule(category: Category, keywords: seq<string>)

  /** Some keyword occurs in `text`. */
  predicate Mentions(text: string, keywords: seq<string>)
  {
    exists k :: k in keywords && Contains(text, k)
  }

  /** Reference definition of a keyword classifier: the category of the first rule,
      in table order, one of whose keywords occurs in `text`. */
  function FirstMatchingRule(text: string, rules: seq<Rule>): (r: Option<Category>)
    ensures r.Some? <==> exists i :: 0 <= i < |rules| && Mentions(text, rules[i].keywords)
    ensures r.Some? ==>
      exists i :: 0 <= i < |rules| && rules[i].category == r.value && Mentions(text, rules[i].keywords) &&
        forall j :: 0 <= j < i ==> !Mentions(text, rules[j].keywords)
  {
    if rules == [] then None
    else if Mentions(text, rules[0].keywords) then Some(rules[0].category)
    else
      var rest := FirstMatchingRule(text, rules[1..]);
      assert forall i :: 1 <= i < |rules| ==> rules[i] == rules[1..][i - 1];
      rest
  }

  lemma MentionsOneOf(text: string, a: string, b: string, c: string)
    ensures Mentions(text, [a]) == Contains(text, a)
    ensures Mentions(text, [a, b, c]) == (Contains(text, a) || Contains(text, b) || Contains(text, c))
  {
    assert a in [a] && a in [a, b, c] && b in [a, b, c] && c in [a, b, c];
  }

  /** A three-rule table is decided by its rules in order. */
  lemma FirstOfThreeRules(text: string, a: Rule, b: Rule, c: Rule)
    ensures FirstMatchingRule(text, [a, b, c]) ==
      if Mentions(text, a.keywords) then Some(a.category)
      else if Mentions(text, b.keywords) then Some(b.category)
      else if Mentions(text, c.keywords) then Some(c.category)
      else None
  {
    assert [a, b, c][1..] == [b, c];
    assert [b, c][1..] == [c];
    assert [c][1..] == [];
    assert FirstMatchingRule(text, [c]) == if Mentions(text, c.keywords) then Some(c.category) else None;
    assert FirstMatchingRule(text, [b, c]) ==
      if Mentions(text, b.keywords) then Some(b.category) else FirstMatchingRule(text, [c]);
  }

  /** A two-rule table is decided by its rules in order. */
  lemma FirstOfTwoRules(text: string, a: Rule, b: Rule)
    ensures FirstMatchingRule(text, [a, b]) ==
      if Mentions(text, a.keywords) then Some(a.category)
      else if Mentions(text, b.keywords) then Some(b.category)
      else None
  {
    assert [a, b][1..] == [b];
    assert [b][1..] == [];
    assert FirstMatchingRule(text, [b]) == if Mentions(text, b.keywords) then Some(b.category) else None;
  }

  lemma MentionsOneOfFour(text: string, a: string, b: string, c: string, d: string)
    ensures Mentions(text, [a, b, c, d]) == (Contains(text, a) || Contains(text, b) || Contains(text, c) || Contains(text, d))
  {
    assert a in [a, b, c, d] && b in [a, b, c, d] && c in [a, b, c, d] && d in [a, b, c, d];
  }

  /** The suggested targets, lower-cased, and the keywords they contain: "done"
      contains the done keyword, */
  lemma DoneTargetKeywords()
    ensures Contains("done", DoneKeyword)
  {
    assert OccursAt("done", DoneKeyword, 0);
  }

  /** "to do" the to-do keyword but not the done keyword, */
  lemma TodoTargetKeywords()
    ensures Contains("to do", TodoKeyword) && !Contains("to do", DoneKeyword)
  {
    var lower := "to do";
    assert OccursAt(lower, TodoKeyword, 0);
    forall j | 0 <= j <= |lower| ensures !OccursAt(lower, DoneKeyword, j) {
      if j + 4 <= 5 {
        assert lower[j..j + 4][0] == lower[j];
      }
    }
  }

  /** and "in progress" the in-progress keyword and none of the others. */
  lemma InProgressTargetKeywords()
    ensures Contains("in progress", InProgressKeyword)
    ensures !Contains("in progress", DoneKeyword) && !Contains("in progress", TodoKeyword)
    ensures !Contains("in progress", TodoCompactKeyword) && !Contains("in progress", NewKeyword)
  {
    var lower := "in progress";
    assert OccursAt(lower, InProgressKeyword, 0);
    NotContainsByFirstChar(lower, DoneKeyword);
    NotContainsByFirstChar(lower, TodoKeyword);
    NotContainsByFirstChar(lower, TodoCompactKeyword);
    forall j | 0 <= j <= |lower| ensures !OccursAt(lower, NewKeyword, j) {
      if j + 3 <= 11 {
        assert lower[j..j + 3][0] == lower[j];
        assert lower[j..j + 3][1] == lower[j + 1];
      }
    }
  }

  const DoneRule := Rule(Done, [DoneKeyword])
  const NewRule := Rule(New, [TodoKeyword, TodoCompactKeyword, NewKeyword])
  const InProgressRule := Rule(Indeterminate, [InProgressKeyword, InProgressCompactKeyword, IndeterminateKeyword])

  /** Classification table of src/automation.ts and of the panel (the panel adds "in review"). */
  const ServerRules := [DoneRule, NewRule, InProgressRule]

  /** Classification table of src/automation.js: no to-do rule. */
  const ServerRulesJs := [DoneRule, InProgressRule]

  /** The panel's in-progress rule also accepts "in review". */
  const PanelInProgressRule := Rule(Indeterminate, [InProgressKeyword, InProgressCompactKeyword, IndeterminateKeyword, InReviewKeyword])

  /** Classification table of the panel's `getTargetCategory`. */
  const PanelRules := [DoneRule, NewRule, PanelInProgressRule]
}
