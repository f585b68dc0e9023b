/** The Bitbucket side of src/bitbucket.ts: the configuration check, the paginated
    search for the pull request of an issue, and the shaping of commits, approvals
    and the pull-request status into what the panel shows.

    Each Bitbucket call is modelled by its outcome: a page of pull requests, the
    commit listing, the pull-request details, or the message of the error it throws. */
module Bitbucket {
  import opened Text
  import opened Vocabulary
  import opened Config

  const ApiBase := "https://api.bitbucket.org/2.0"
  const PrStatesQuery := "state=OPEN&state=MERGED&state=DECLINED&state=CLOSED&pagelen=50"

  const UsernameSetting := "BITBUCKET_USERNAME"
  const AppPasswordSetting := "BITBUCKET_APP_PASSWORD"
  const WorkspaceSetting := "BITBUCKET_WORKSPACE"
  const RepoSlugSetting := "BITBUCKET_REPO_SLUG"

  // ================================================================ data

  datatype User = User(displayName: Option<string>, nickname: Option<string>, username: Option<string>,
                       accountId: Option<string>)

  datatype Participant = Participant(approved: Option<bool>, user: Option<User>)

  /** A pull request as the listing returns it (the fields the resolver reads). */
  datatype PullRequest = PullRequest(
    id: nat,
    title: string,
    state: Option<string>,
    draft: Option<bool>,
    authorName: Option<string>,
    createdOn: Option<string>,
    sourceBranch: Option<string>,
    destBranch: Option<string>,
    link: Option<string>)

  /** A commit as the commit listing returns it; `authorName` is `author.user.display_name`
      and `authorRaw` is `author.raw`. */
  datatype RawCommit = RawCommit(
    hash: Option<string>,
    message: Option<string>,
    authorName: Option<string>,
    authorRaw: Option<string>,
    date: Option<string>,
    link: Option<string>)

  datatype CommitInfo = CommitInfo(hash: string, message: string, author: string, date: string, link: string)

  datatype Approver = Approver(name: string, accountId: Option<string>)

  datatype Approvals = Approvals(approved: bool, approvals: nat, approvers: seq<Approver>)

  /** One page of the pull-request listing, or the error its fetch threw. */
  datatype PageReply = Page(values: Option<seq<PullRequest>>, next: Option<string>) | PageFailed(message: string)

  /** The pull-request details fetch: the participants, or the error it threw. */
  datatype DetailsReply = Details(participants: Option<seq<Participant>>) | DetailsFailed(message: string)

  // ================================================================ small rules

  /** `String(url || '').replace(API_BASE, '')`: drops the first occurrence of the API base. */
  function StripApiBase(url: Option<string>): (r: string)
    ensures !Truthy(url) ==> r == ""
    ensures Truthy(url) && !Contains(url.value, ApiBase) ==> r == url.value
  {
    ReplaceFirst(OrEmpty(url), ApiBase, "")
  }

  /** The `next` links Bitbucket returns are absolute; stripping gives back the path. */
  lemma StripApiBaseOfAbsoluteUrl(path: string)
    ensures StripApiBase(Some(ApiBase + path)) == path
  {
    ReplaceFirstAtFront(ApiBase, path);
  }

  /** `normalisePrStatus`: case-insensitive on the state, total, and anything that is
      not MERGED, OPEN or DECLINED (absent and empty included) is closed. */
  function NormalisePrStatus(rawState: Option<string>, isDraft: Option<bool>): (r: PrStatus)
    ensures var upper := ToUpper(OrEmpty(rawState));
      && (r == Merged <==> upper == "MERGED")
      && (r == Draft <==> upper == "OPEN" && isDraft == Some(true))
      && (r == Open <==> upper == "OPEN" && isDraft != Some(true))
      && (r == Declined <==> upper == "DECLINED")
      && (r == Closed <==> upper != "MERGED" && upper != "OPEN" && upper != "DECLINED")
  {
    var upper := ToUpper(OrEmpty(rawState));
    if upper == "MERGED" then Merged
    else if upper == "OPEN" then (if isDraft == Some(true) then Draft else Open)
    else if upper == "DECLINED" then Declined
    else Closed
  }

  /** Upper-casing forgets the case of the input. */
  lemma {:induction false} ToUpperOfLower(s: string)
    ensures ToUpper(ToLower(s)) == ToUpper(s)
  {
    forall i | 0 <= i < |s| ensures ToUpper(ToLower(s))[i] == ToUpper(s)[i] {
      assert ToLower(s)[i] == LowerChar(s[i]);
    }
  }

  /** The state's case does not matter: "merged", "Merged" and "MERGED" are one state. */
  lemma NormalisePrStatusIgnoresCase(rawState: string, isDraft: Option<bool>)
    ensures NormalisePrStatus(Some(ToLower(rawState)), isDraft) == NormalisePrStatus(Some(rawState), isDraft)
  {
    ToUpperOfLower(rawState);
  }

  // ================================================================ configuration

  /** The unset settings of a configuration, in the fixed reporting order. */
  function MissingFields(c: AppConfig): (r: seq<string>)
  {
    (if !Truthy(c.username) then [UsernameSetting] else []) +
    (if !Truthy(c.appPassword) then [AppPasswordSetting] else []) +
    (if !Truthy(c.workspace) then [WorkspaceSetting] else []) +
    (if !Truthy(c.repositorySlug) then [RepoSlugSetting] else [])
  }

  /** `getMissingConfigurationFields`, pushing each unset setting in turn. */
  method GetMissingConfigurationFields(c: AppConfig) returns (missing: seq<string>)
    ensures missing == MissingFields(c)
  {
    missing := [];
    if !Truthy(c.username) { missing := missing + [UsernameSetting]; }
    if !Truthy(c.appPassword) { missing := missing + [AppPasswordSetting]; }
    if !Truthy(c.workspace) { missing := missing + [WorkspaceSetting]; }
    if !Truthy(c.repositorySlug) { missing := missing + [RepoSlugSetting]; }
  }

  /** A setting is reported exactly when it is unset, and nothing is reported exactly
      when `isConfigured` holds. */
  lemma MissingFieldsAreTheUnsetSettings(c: AppConfig)
    ensures var missing := MissingFields(c);
      && (UsernameSetting in missing <==> !Truthy(c.username))
      && (AppPasswordSetting in missing <==> !Truthy(c.appPassword))
      && (WorkspaceSetting in missing <==> !Truthy(c.workspace))
      && (RepoSlugSetting in missing <==> !Truthy(c.repositorySlug))
      && (missing == [] <==> IsConfigured(c))
  {
  }

  /** The `checkConfiguration` resolver's answer. */
  datatype ConfigurationCheck = ConfigurationCheck(success: bool, configured: bool, error: Option<string>)

  const MissingConfigurationPrefix := "Missing configuration in Forge environment variables: "

  /** `checkConfiguration`: configured exactly when no setting is missing; otherwise the
      error lists the missing settings, in order, separated by ", ". */
  method CheckConfiguration(c: AppConfig) returns (r: ConfigurationCheck)
    ensures r.success == r.configured && (r.configured <==> IsConfigured(c))
    ensures r.configured ==> r.error.None?
    ensures !r.configured ==> r.error == Some(MissingConfigurationPrefix + Join(MissingFields(c), ", "))
  {
    var missingFields := GetMissingConfigurationFields(c);
    MissingFieldsAreTheUnsetSettings(c);
    if |missingFields| > 0 {
      return ConfigurationCheck(false, false, Some(MissingConfigurationPrefix + Join(missingFields, ", ")));
    }
    return ConfigurationCheck(true, true, None);
  }

  // ================================================================ commits

  /** The commit author: the user's display name, else the raw author text before the
      first '<', else "Unknown"; never empty. */
  function CommitAuthor(c: RawCommit): (r: string)
    ensures r != ""
    ensures Truthy(c.authorName) ==> r == c.authorName.value
    ensures !Truthy(c.authorName) && c.authorRaw.Some? && BeforeFirst(c.authorRaw.value, '<') != "" ==>
      r == BeforeFirst(c.authorRaw.value, '<') && '<' !in r
    ensures !Truthy(c.authorName) && (c.authorRaw.None? || BeforeFirst(c.authorRaw.value, '<') == "") ==>
      r == "Unknown"
  {
    if Truthy(c.authorName) then c.authorName.value
    else if c.authorRaw.Some? && BeforeFirst(c.authorRaw.value, '<') != "" then BeforeFirst(c.authorRaw.value, '<')
    else "Unknown"
  }

  function ToCommitInfo(c: RawCommit): (r: CommitInfo)
  {
    CommitInfo(OrEmpty(c.hash), OrEmpty(c.message), CommitAuthor(c), OrEmpty(c.date), OrEmpty(c.link))
  }

  /** `mapCommits`: one entry per listed commit, in order; missing text fields become "". */
  function MapCommits(values: Option<seq<RawCommit>>): (r: seq<CommitInfo>)
    ensures |r| == |ListOrEmpty(values)|
    ensures forall i :: 0 <= i < |r| ==> r[i] == ToCommitInfo(ListOrEmpty(values)[i])
  {
    var commits := ListOrEmpty(values);
    seq(|commits|, i requires 0 <= i < |commits| => ToCommitInfo(commits[i]))
  }

  /** A commit with every field present keeps them all, author included. */
  lemma MapCommitsKeepsPresentFields(c: RawCommit)
    requires Truthy(c.hash) && Truthy(c.message) && Truthy(c.authorName) && Truthy(c.date) && Truthy(c.link)
    ensures MapCommits(Some([c])) == [CommitInfo(c.hash.value, c.message.value, c.authorName.value, c.date.value, c.link.value)]
  {
  }

  // ================================================================ approvals

  /** `participant.user?.display_name || nickname || username || 'Unknown'` */
  function ApproverName(user: Option<User>): (r: string)
    ensures r != ""
  {
    if user.None? then "Unknown"
    else if Truthy(user.value.displayName) then user.value.displayName.value
    else if Truthy(user.value.nickname) then user.value.nickname.value
    else if Truthy(user.value.username) then user.value.username.value
    else "Unknown"
  }

  function ToApprover(p: Participant): (r: Approver)
  {
    Approver(ApproverName(p.user), if p.user.Some? && Truthy(p.user.value.accountId) then p.user.value.accountId else None)
  }

  /** `participants.filter(p => p.approved === true)`. */
  function ApprovedParticipants(ps: seq<Participant>): (r: seq<Participant>)
    ensures |r| <= |ps|
    ensures forall p :: p in r <==> p in ps && p.approved == Some(true)
  {
    if ps == [] then []
    else (if ps[0].approved == Some(true) then [ps[0]] else []) + ApprovedParticipants(ps[1..])
  }

  /** The filter keeps the approved participants in participant order. */
  lemma {:induction false} ApprovedParticipantsKeepOrder(ps: seq<Participant>)
    ensures exists idx :: SelectedAt(ApprovedParticipants(ps), ps, idx)
  {
    if ps == [] {
      var none: seq<nat> := [];
      assert ApprovedParticipants(ps) == [];
      assert SelectedAt(ApprovedParticipants(ps), ps, none);
    } else {
      ApprovedParticipantsKeepOrder(ps[1..]);
      var rest := ApprovedParticipants(ps[1..]);
      var idx :| SelectedAt(rest, ps[1..], idx);
      SelectedAtShift(rest, ps, idx);
      if ps[0].approved == Some(true) {
        assert ApprovedParticipants(ps) == [ps[0]] + rest;
        assert SelectedAt(ApprovedParticipants(ps), ps, [0] + Shift(idx));
      } else {
        assert ApprovedParticipants(ps) == rest;
        assert SelectedAt(ApprovedParticipants(ps), ps, Shift(idx));
      }
    }
  }

  /** Number of participants whose `approved` is exactly true. */
  function CountApproved(ps: seq<Participant>): (r: nat)
  {
    if ps == [] then 0 else (if ps[0].approved == Some(true) then 1 else 0) + CountApproved(ps[1..])
  }

  lemma {:induction false} ApprovedParticipantsCount(ps: seq<Participant>)
    ensures |ApprovedParticipants(ps)| == CountApproved(ps)
  {
    if ps != [] {
      ApprovedParticipantsCount(ps[1..]);
    }
  }

  /** `loadPrApprovals`: the approvals are the approved participants, in order; a
      failed details fetch gives no approvals at all. */
  function LoadPrApprovals(reply: DetailsReply): (r: Approvals)
    ensures reply.DetailsFailed? ==> r == Approvals(false, 0, [])
    ensures r.approvals == |r.approvers| && (r.approved <==> r.approvals > 0)
    ensures reply.Details? ==>
      var approved := ApprovedParticipants(ListOrEmpty(reply.participants));
      r.approvals == CountApproved(ListOrEmpty(reply.participants)) && |r.approvers| == |approved|
      && forall i :: 0 <= i < |r.approvers| ==> r.approvers[i] == ToApprover(approved[i])
  {
    match reply
    case DetailsFailed(_) => Approvals(false, 0, [])
    case Details(participants) =>
      var approved := ApprovedParticipants(ListOrEmpty(participants));
      ApprovedParticipantsCount(ListOrEmpty(participants));
      var approvers := seq(|approved|, i requires 0 <= i < |approved| => ToApprover(approved[i]));
      Approvals(|approved| > 0, |approved|, approvers)
  }

  // ================================================================ the pull-request search

  /** The branch a pull request is matched on: `pr.source?.branch?.name || ''`. */
  function Branch(pr: PullRequest): (r: string)
  {
    OrEmpty(pr.sourceBranch)
  }

  function Branches(prs: seq<PullRequest>): (r: seq<string>)
    ensures |r| == |prs| && forall i :: 0 <= i < |prs| ==> r[i] == Branch(prs[i])
  {
    seq(|prs|, i requires 0 <= i < |prs| => Branch(prs[i]))
  }

  /** The position of the first pull request whose branch contains the key. */
  function FirstBranchMatch(prs: seq<PullRequest>, issueKey: string): (r: Option<nat>)
    ensures r.Some? ==> r.value < |prs| && Contains(Branch(prs[r.value]), issueKey)
    ensures forall j :: 0 <= j < |prs| && (r.None? || j < r.value) ==> !Contains(Branch(prs[j]), issueKey)
  {
    if prs == [] then None
    else if Contains(Branch(prs[0]), issueKey) then Some(0)
    else match FirstBranchMatch(prs[1..], issueKey)
      case None => None
      case Some(k) => Some(k + 1)
  }

  /** The page leads on: its `next` link strips to a non-empty path. */
  predicate Continues(p: PageReply)
  {
    p.Page? && Truthy(p.next) && p.next.value != ApiBase
  }

  /** Stripping the API base leaves nothing to fetch only from an absent or empty link
      or from the bare base itself. */
  lemma ContinuesWhenPathLeft(p: PageReply)
    requires p.Page?
    ensures Continues(p) <==> StripApiBase(p.next) != ""
  {
    if Truthy(p.next) {
      var url := p.next.value;
      if url == ApiBase {
        ReplaceFirstAtFront(ApiBase, "");
        assert ApiBase + "" == url;
      }
    }
  }

  /** The replies cover the whole listing: the last one does not lead on. */
  predicate EndsListing(pages: seq<PageReply>)
  {
    |pages| > 0 && !Continues(pages[|pages| - 1])
  }

  /** What `findPrByIssueKey` yields: the pull request found (if any), every branch it
      examined in order, and how many pages it fetched; or the error a fetch threw. */
  datatype Search = Search(target: Option<PullRequest>, branches: seq<string>, pagesRead: nat) | SearchFailed(message: string)

  /** A search result preceded by earlier pages' branches and page count. */
  function Prepend(branches: seq<string>, pagesRead: nat, r: Search): (s: Search)
  {
    match r
    case SearchFailed(_) => r
    case Search(target, more, n) => Search(target, branches + more, pagesRead + n)
  }

  /** Reference definition of the search, page by page: the first page with a matching
      branch ends it; so do a page that does not lead on and a failed fetch. */
  function SearchPages(pages: seq<PageReply>, issueKey: string): (r: Search)
    requires EndsListing(pages)
    decreases |pages|
    ensures r.Search? ==> 1 <= r.pagesRead <= |pages|
  {
    if pages[0].PageFailed? then SearchFailed(pages[0].message)
    else
      var prs := ListOrEmpty(pages[0].values);
      var m := FirstBranchMatch(prs, issueKey);
      if m.Some? then Search(Some(prs[m.value]), Branches(prs[..m.value + 1]), 1)
      else if !Continues(pages[0]) then Search(None, Branches(prs), 1)
      else
        assert pages[1..][|pages| - 2] == pages[|pages| - 1];
        Prepend(Branches(prs), 1, SearchPages(pages[1..], issueKey))
  }

  /** The search fetches a page only when every page before it led on and held no
      match. */
  lemma {:induction false} SearchReadsOnlyNeededPages(pages: seq<PageReply>, issueKey: string)
    requires EndsListing(pages)
    decreases |pages|
    ensures var r := SearchPages(pages, issueKey);
      r.Search? ==> forall i :: 0 <= i < r.pagesRead - 1 ==>
        Continues(pages[i]) && FirstBranchMatch(ListOrEmpty(pages[i].values), issueKey).None?
  {
    var r := SearchPages(pages, issueKey);
    if r.Search? && pages[0].Page? && FirstBranchMatch(ListOrEmpty(pages[0].values), issueKey).None? && Continues(pages[0]) {
      SearchReadsOnlyNeededPages(pages[1..], issueKey);
      forall i | 1 <= i < r.pagesRead - 1
        ensures Continues(pages[i]) && FirstBranchMatch(ListOrEmpty(pages[i].values), issueKey).None?
      {
        assert pages[i] == pages[1..][i - 1];
      }
    }
  }

  /** Every branch of the listing, page after page, up to the page that ends it. */
  function ListedBranches(pages: seq<PageReply>): (r: seq<string>)
    requires EndsListing(pages)
    decreases |pages|
  {
    match pages[0]
    case PageFailed(_) => []
    case Page(values, _) =>
      Branches(ListOrEmpty(values)) + (if Continues(pages[0]) then ListedBranches(pages[1..]) else [])
  }

  /** `r` reports a first-match search over the branches `listed`: it examined a prefix
      of them, the last one examined is the match and none before it matches; a search
      without a match examined them all and none matches. */
  predicate ReportsFirstMatch(r: Search, listed: seq<string>, issueKey: string)
  {
    r.Search? ==>
      && r.branches <= listed
      && (r.target.None? ==> r.branches == listed)
      && (r.target.Some? ==>
           |r.branches| > 0 && r.branches[|r.branches| - 1] == Branch(r.target.value)
           && Contains(Branch(r.target.value), issueKey))
      && forall j :: 0 <= j < |r.branches| && (r.target.None? || j < |r.branches| - 1) ==>
           !Contains(r.branches[j], issueKey)
  }

  /** A match on the first page reports the branches up to and including it. */
  lemma FoundOnPage(prs: seq<PullRequest>, issueKey: string, k: nat)
    requires FirstBranchMatch(prs, issueKey) == Some(k)
    ensures ReportsFirstMatch(Search(Some(prs[k]), Branches(prs[..k + 1]), 1), Branches(prs), issueKey)
  {
  }

  /** A page without a match, followed by a first-match search of the rest. */
  lemma MissedOnPage(here: seq<string>, rest: Search, listedRest: seq<string>, issueKey: string)
    requires forall j :: 0 <= j < |here| ==> !Contains(here[j], issueKey)
    requires ReportsFirstMatch(rest, listedRest, issueKey)
    ensures ReportsFirstMatch(Prepend(here, 1, rest), here + listedRest, issueKey)
  {
    if rest.Search? {
      var all := here + rest.branches;
      forall j | 0 <= j < |all| && (rest.target.None? || j < |all| - 1)
        ensures !Contains(all[j], issueKey)
      {
        if j >= |here| {
          assert all[j] == rest.branches[j - |here|];
        }
      }
    }
  }

  /** A page that ends the listing without a match reports all of its branches. */
  lemma MissedLastPage(prs: seq<PullRequest>, issueKey: string)
    requires FirstBranchMatch(prs, issueKey).None?
    ensures ReportsFirstMatch(Search(None, Branches(prs), 1), Branches(prs), issueKey)
  {
  }

  /** A report of a match stays one when more branches are listed after it. */
  lemma FoundBeforeMore(r: Search, listed: seq<string>, more: seq<string>, issueKey: string)
    requires r.Search? && r.target.Some? && ReportsFirstMatch(r, listed, issueKey)
    ensures ReportsFirstMatch(r, listed + more, issueKey)
  {
    assert r.branches <= listed + more by {
      assert (listed + more)[..|r.branches|] == listed[..|r.branches|];
    }
  }

  lemma ListedBranchesUnfold(pages: seq<PageReply>)
    requires EndsListing(pages) && pages[0].Page?
    ensures ListedBranches(pages) ==
      Branches(ListOrEmpty(pages[0].values)) + (if Continues(pages[0]) then ListedBranches(pages[1..]) else [])
  {
  }

  /** The search finds the FIRST pull request, in page-then-list order, whose branch
      contains the key, having examined exactly the branches up to it; when nothing
      matches it has examined the whole listing. */
  lemma {:induction false} SearchFindsFirstMatch(pages: seq<PageReply>, issueKey: string)
    requires EndsListing(pages)
    decreases |pages|
    ensures ReportsFirstMatch(SearchPages(pages, issueKey), ListedBranches(pages), issueKey)
  {
    if pages[0].Page? {
      var prs := ListOrEmpty(pages[0].values);
      var m := FirstBranchMatch(prs, issueKey);
      var more := if Continues(pages[0]) then ListedBranches(pages[1..]) else [];
      SearchPagesUnfold(pages, issueKey);
      ListedBranchesUnfold(pages);
      if m.Some? {
        FoundOnPage(prs, issueKey, m.value);
        FoundBeforeMore(SearchPages(pages, issueKey), Branches(prs), more, issueKey);
      } else if Continues(pages[0]) {
        SearchFindsFirstMatch(pages[1..], issueKey);
        MissedOnPage(Branches(prs), SearchPages(pages[1..], issueKey), ListedBranches(pages[1..]), issueKey);
      } else {
        MissedLastPage(prs, issueKey);
        assert Branches(prs) + more == Branches(prs);
      }
    }
  }

  /** The `find` over one page: pushes each branch it looks at, stops at the first
      that contains the key. */
  method ScanPage(prs: seq<PullRequest>, issueKey: string) returns (found: Option<PullRequest>, examined: seq<string>)
    ensures match FirstBranchMatch(prs, issueKey)
      case Some(k) => found == Some(prs[k]) && examined == Branches(prs[..k + 1])
      case None => found.None? && examined == Branches(prs)
  {
    found, examined := None, [];
    var j := 0;
    while j < |prs| && found.None?
      invariant 0 <= j <= |prs|
      invariant found.None? ==> examined == Branches(prs[..j]) && forall m :: 0 <= m < j ==> !Contains(Branch(prs[m]), issueKey)
      invariant found.Some? ==>
        0 < j && found == Some(prs[j - 1]) && examined == Branches(prs[..j]) &&
        Contains(Branch(prs[j - 1]), issueKey) && forall m :: 0 <= m < j - 1 ==> !Contains(Branch(prs[m]), issueKey)
    {
      var branch := Branch(prs[j]);
      examined := examined + [branch];
      assert prs[..j + 1] == prs[..j] + [prs[j]];
      if Contains(branch, issueKey) {
        found := Some(prs[j]);
      }
      j := j + 1;
    }
    assert found.None? ==> prs[..j] == prs;
  }

  lemma PrependTwice(a: seq<string>, n: nat, b: seq<string>, m: nat, r: Search)
    ensures Prepend(a, n, Prepend(b, m, r)) == Prepend(a + b, n + m, r)
  {
    if r.Search? {
      assert a + (b + r.branches) == (a + b) + r.branches;
    }
  }

  /** One page of the search: a match ends it, so does a page that does not lead on;
      otherwise the rest of the listing is searched. */
  lemma SearchPagesUnfold(pages: seq<PageReply>, issueKey: string)
    requires EndsListing(pages) && pages[0].Page?
    ensures var prs := ListOrEmpty(pages[0].values);
      var m := FirstBranchMatch(prs, issueKey);
      && (m.Some? ==> SearchPages(pages, issueKey) == Search(Some(prs[m.value]), Branches(prs[..m.value + 1]), 1))
      && (m.None? && !Continues(pages[0]) ==> SearchPages(pages, issueKey) == Search(None, Branches(prs), 1))
      && (m.None? && Continues(pages[0]) ==>
            EndsListing(pages[1..]) && SearchPages(pages, issueKey) == Prepend(Branches(prs), 1, SearchPages(pages[1..], issueKey)))
  {
  }

  /** `findPrByIssueKey`: fetch page after page while there is a path to fetch and no
      pull request has been found. */
  method FindPrByIssueKey(workspace: string, repository: string, issueKey: string, pages: seq<PageReply>)
    returns (r: Search)
    requires EndsListing(pages)
    ensures r == SearchPages(pages, issueKey)
  {
    var url := "/repositories/" + workspace + "/" + repository + "/pullrequests?" + PrStatesQuery;
    var targetPR: Option<PullRequest> := None;
    var allBranches: seq<string> := [];
    var i := 0;
    while url != "" && targetPR.None?
      invariant 0 <= i <= |pages|
      invariant i == 0 ==> url != "" && targetPR.None? && allBranches == []
      invariant targetPR.None? && i > 0 ==> (url != "" <==> Continues(pages[i - 1]))
      invariant targetPR.None? && url != "" ==>
        i < |pages| && SearchPages(pages, issueKey) == Prepend(allBranches, i, SearchPages(pages[i..], issueKey))
      invariant targetPR.None? && url == "" ==> SearchPages(pages, issueKey) == Search(None, allBranches, i)
      invariant targetPR.Some? ==> SearchPages(pages, issueKey) == Search(targetPR, allBranches, i)
      decreases |pages| - i
    {
      var page := pages[i];
      if page.PageFailed? {
        return SearchFailed(page.message);
      }
      var found, examined := ScanPage(ListOrEmpty(page.values), issueKey);
      assert pages[i..][0] == page;
      SearchPagesUnfold(pages[i..], issueKey);
      if !Continues(page) || found.Some? {
      } else {
        assert pages[i..][1..] == pages[i + 1..];
        PrependTwice(allBranches, i, examined, 1, SearchPages(pages[i + 1..], issueKey));
      }
      allBranches := allBranches + examined;
      targetPR := found;
      i := i + 1;
      if targetPR.None? {
        url := if Truthy(page.next) then StripApiBase(page.next) else "";
        ContinuesWhenPathLeft(page);
      }
    }
    return Search(targetPR, allBranches, i);
  }

  // ================================================================ getPRWithCommits

  /** The resolver payload. */
  datatype Payload = Payload(workspace: Option<string>, repository: Option<string>, issueKey: Option<string>)

  /** The commit listing, or the error its fetch threw. */
  datatype CommitsReply = Commits(values: Option<seq<RawCommit>>) | CommitsFailed(message: string)

  /** The `pr` object the resolver returns. */
  datatype PrDetails = PrDetails(
    id: nat,
    title: string,
    approved: bool,
    approvals: nat,
    approvers: seq<Approver>,
    author: Option<string>,
    created: Option<string>,
    state: Option<string>,
    status: PrStatus,
    link: Option<string>,
    sourceBranch: Option<string>,
    destBranch: Option<string>)

  /** What `getPRWithCommits` returns when it does not throw. */
  datatype PrResponse<C> = PrFound(pr: PrDetails, commits: seq<C>, commitCount: nat) | PrNotFound(error: string)

  /** A resolver either returns a value or throws with a message. */
  datatype Outcome<T> = Returned(value: T) | Threw(message: string)

  const RequiredMessage := "workspace, repository and issueKey are required"

  /** The answer for a found pull request, its commits and its approvals. */
  function Assemble<C>(pr: PullRequest, commits: seq<C>, approvals: Approvals): (r: PrResponse<C>)
    ensures r.PrFound? && r.commitCount == |r.commits| && r.commits == commits
    ensures r.pr.status == NormalisePrStatus(pr.state, pr.draft)
  {
    var details := PrDetails(pr.id, pr.title, approvals.approved, approvals.approvals, approvals.approvers,
                             pr.authorName, pr.createdOn, pr.state, NormalisePrStatus(pr.state, pr.draft), pr.link,
                             pr.sourceBranch, pr.destBranch);
    PrFound(details, commits, |commits|)
  }

  function NotFoundText(issueKey: string, branches: seq<string>): (r: string)
  {
    "No PR found for " + issueKey + ". Checked branches: " + Join(branches, ", ")
  }

  /** `getPRWithCommits` once the workspace, repository and key are known and present:
      the credential check of the first fetch, the search, the commits, the approvals. */
  function PrWithCommitsFor<C>(credentials: Validation, issueKey: string, pages: seq<PageReply>,
                               commits: CommitsReply, details: DetailsReply, mapCommits: Option<seq<RawCommit>> -> seq<C>)
    : (r: Outcome<PrResponse<C>>)
    requires EndsListing(pages)
  {
    if credentials.Refused? then Threw(credentials.message)
    else match SearchPages(pages, issueKey)
      case SearchFailed(message) => Threw(message)
      case Search(None, branches, _) => Returned(PrNotFound(NotFoundText(issueKey, branches)))
      case Search(Some(pr), _, _) =>
        match commits
        case CommitsFailed(message) => Threw(message)
        case Commits(values) => Returned(Assemble(pr, mapCommits(values), LoadPrApprovals(details)))
  }

  /** The workspace, repository and key of src/bitbucket.ts: an empty or absent payload
      value falls back to the configured one (`||`); the key defaults to "". */
  function RequestTarget(payload: Payload, c: AppConfig): (r: (Option<string>, Option<string>, string))
  {
    (Or(payload.workspace, c.workspace), Or(payload.repository, c.repositorySlug), OrEmpty(payload.issueKey))
  }

  /** `getPRWithCommits` of src/bitbucket.ts as a function of its inputs. */
  function PrWithCommits(payload: Payload, c: AppConfig, pages: seq<PageReply>, commits: CommitsReply, details: DetailsReply)
    : (r: Outcome<PrResponse<CommitInfo>>)
    requires EndsListing(pages)
  {
    var (workspace, repository, issueKey) := RequestTarget(payload, c);
    if !Truthy(workspace) || !Truthy(repository) || issueKey == "" then Threw(RequiredMessage)
    else PrWithCommitsFor(ValidateBitbucketCredentials(c), issueKey, pages, commits, details, MapCommits)
  }

  /** A found pull request is reported with its commits counted, its status
      normalised, its approvals consistent, and a source branch containing the key; a
      miss lists every branch of the listing, none of which contains the key. */
  lemma PrWithCommitsFacts<C>(credentials: Validation, issueKey: string, pages: seq<PageReply>,
                              commits: CommitsReply, details: DetailsReply, mapCommits: Option<seq<RawCommit>> -> seq<C>)
    requires EndsListing(pages)
    ensures var r := PrWithCommitsFor(credentials, issueKey, pages, commits, details, mapCommits);
      var search := SearchPages(pages, issueKey);
      && (r.Returned? && r.value.PrFound? ==>
           var found := search.target.value;
           var pr := r.value.pr;
           && search.Search? && search.target.Some?
           && r.value.commitCount == |r.value.commits|
           && pr.status == NormalisePrStatus(found.state, found.draft)
           && pr.approvals == |pr.approvers| && (pr.approved <==> pr.approvals > 0)
           && pr.sourceBranch == found.sourceBranch && Contains(OrEmpty(pr.sourceBranch), issueKey))
      && (r.Returned? && r.value.PrNotFound? ==>
           r.value.error == NotFoundText(issueKey, ListedBranches(pages))
           && forall b :: b in ListedBranches(pages) ==> !Contains(b, issueKey))
  {
    SearchFindsFirstMatch(pages, issueKey);
  }

  /** A request without a workspace, repository or key throws before any fetch: the
      answer does not depend on Bitbucket at all. */
  lemma MissingTargetThrowsFirst(payload: Payload, c: AppConfig, pages: seq<PageReply>, commits: CommitsReply,
                                 details: DetailsReply, pages2: seq<PageReply>, commits2: CommitsReply, details2: DetailsReply)
    requires EndsListing(pages) && EndsListing(pages2)
    requires var (workspace, repository, issueKey) := RequestTarget(payload, c);
      !Truthy(workspace) || !Truthy(repository) || issueKey == ""
    ensures PrWithCommits(payload, c, pages, commits, details) == Threw(RequiredMessage)
    ensures PrWithCommits(payload, c, pages, commits, details) == PrWithCommits(payload, c, pages2, commits2, details2)
  {
  }

  /** The `getPRWithCommits` resolver, step by step. */
  method GetPrWithCommits(payload: Payload, c: AppConfig, pages: seq<PageReply>, commits: CommitsReply,
                          details: DetailsReply) returns (r: Outcome<PrResponse<CommitInfo>>)
    requires EndsListing(pages)
    ensures r == PrWithCommits(payload, c, pages, commits, details)
  {
    var (workspace, repository, issueKey) := RequestTarget(payload, c);
    if !Truthy(workspace) || !Truthy(repository) || issueKey == "" {
      return Threw(RequiredMessage);
    }
    r := ResolvePr(workspace.value, repository.value, issueKey, ValidateBitbucketCredentials(c), pages, commits, details, MapCommits);
  }

  /** The fetching half of `getPRWithCommits`, shared by both builds; `credentials`
      is the verdict of the credential check every fetch starts with. */
  method ResolvePr<C>(workspace: string, repository: string, issueKey: string, credentials: Validation,
                      pages: seq<PageReply>, commits: CommitsReply, details: DetailsReply,
                      mapCommits: Option<seq<RawCommit>> -> seq<C>) returns (r: Outcome<PrResponse<C>>)
    requires EndsListing(pages)
    ensures r == PrWithCommitsFor(credentials, issueKey, pages, commits, details, mapCommits)
  {
    if credentials.Refused? {
      return Threw(credentials.message);
    }
    var search := FindPrByIssueKey(workspace, repository, issueKey, pages);
    if search.SearchFailed? {
      return Threw(search.message);
    }
    if search.target.None? {
      return Returned(PrNotFound(NotFoundText(issueKey, search.branches)));
    }
    var found := search.target.value;
    if commits.CommitsFailed? {
      return Threw(commits.message);
    }
    var commitList := mapCommits(commits.values);
    var approvals := LoadPrApprovals(details);
    return Returned(Assemble(found, commitList, approvals));
  }
}
