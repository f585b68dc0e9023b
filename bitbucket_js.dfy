/** The Bitbucket side of src/bitbucket.js. Its search, status normalisation, URL
    stripping, approvals and missing-settings list are those of src/bitbucket.ts
    (module Bitbucket); this build differs in three places: commits are copied
    without '' defaults, the payload falls back to the configuration only for ABSENT
    values, and the configuration messages name .env.local. */
module BitbucketJs {
  import opened Text
  import opened Config
  import ConfigJs
  import opened Bitbucket

  const MissingConfigurationPrefixJs := "Missing configuration in .env.local: "

  /** `checkConfiguration` of src/bitbucket.js: the same verdict, another message. */
  method CheckConfigurationJs(c: AppConfig) returns (r: ConfigurationCheck)
    ensures r.success == r.configured && (r.configured <==> IsConfigured(c))
    ensures r.configured ==> r.error.None?
    ensures !r.configured ==> r.error == Some(MissingConfigurationPrefixJs + Join(MissingFields(c), ", "))
  {
    var missingFields := GetMissingConfigurationFields(c);
    MissingFieldsAreTheUnsetSettings(c);
    if |missingFields| > 0 {
      return ConfigurationCheck(false, false, Some(MissingConfigurationPrefixJs + Join(missingFields, ", ")));
    }
    return ConfigurationCheck(true, true, None);
  }

  // ================================================================ commits

  /** A commit as src/bitbucket.js returns it: absent fields stay absent. */
  datatype CommitInfoJs = CommitInfoJs(hash: Option<string>, message: Option<string>, author: string,
                                       date: Option<string>, link: Option<string>)

  function ToCommitInfoJs(c: RawCommit): (r: CommitInfoJs)
  {
    CommitInfoJs(c.hash, c.message, CommitAuthor(c), c.date, c.link)
  }

  /** `mapCommits` of src/bitbucket.js: one entry per listed commit, in order, each
      field copied as it is and the author found by the same chain as in TypeScript. */
  function MapCommitsJs(values: Option<seq<RawCommit>>): (r: seq<CommitInfoJs>)
    ensures |r| == |ListOrEmpty(values)|
    ensures forall i :: 0 <= i < |r| ==> r[i] == ToCommitInfoJs(ListOrEmpty(values)[i])
  {
    var commits := ListOrEmpty(values);
    seq(|commits|, i requires 0 <= i < |commits| => ToCommitInfoJs(commits[i]))
  }

  /** The two builds list the same commits with the same authors; the TypeScript entry
      is the JavaScript one with every absent field read as ''. */
  lemma MapCommitsBuildsAgree(values: Option<seq<RawCommit>>)
    ensures var ts := MapCommits(values);
      var js := MapCommitsJs(values);
      |ts| == |js| &&
      forall i :: 0 <= i < |ts| ==>
        ts[i] == CommitInfo(OrEmpty(js[i].hash), OrEmpty(js[i].message), js[i].author, OrEmpty(js[i].date), OrEmpty(js[i].link))
  {
  }

  // ================================================================ getPRWithCommits

  /** `const { workspace = config…, repository = config…, issueKey = '' } = payload || {}`:
      a default applies only when the payload value is absent; a present empty value
      is kept (and then rejected). */
  function RequestTargetJs(payload: Payload, c: AppConfig): (r: (Option<string>, Option<string>, string))
    ensures payload.workspace.Some? ==> r.0 == payload.workspace
    ensures payload.workspace.None? ==> r.0 == c.workspace
    ensures payload.repository.Some? ==> r.1 == payload.repository
    ensures payload.repository.None? ==> r.1 == c.repositorySlug
    ensures r.2 == OrEmpty(payload.issueKey)
  {
    (if payload.workspace.Some? then payload.workspace else c.workspace,
     if payload.repository.Some? then payload.repository else c.repositorySlug,
     if payload.issueKey.Some? then payload.issueKey.value else "")
  }

  /** `getPRWithCommits` of src/bitbucket.js as a function of its inputs. */
  function PrWithCommitsJs(payload: Payload, c: AppConfig, pages: seq<PageReply>, commits: CommitsReply,
                           details: DetailsReply): (r: Outcome<PrResponse<CommitInfoJs>>)
    requires EndsListing(pages)
  {
    var (workspace, repository, issueKey) := RequestTargetJs(payload, c);
    if !Truthy(workspace) || !Truthy(repository) || issueKey == "" then Threw(RequiredMessage)
    else PrWithCommitsFor(ConfigJs.ValidateBitbucketCredentials(c), issueKey, pages, commits, details, MapCommitsJs)
  }

  /** The `getPRWithCommits` resolver of src/bitbucket.js, step by step. */
  method GetPrWithCommitsJs(payload: Payload, c: AppConfig, pages: seq<PageReply>, commits: CommitsReply,
                            details: DetailsReply) returns (r: Outcome<PrResponse<CommitInfoJs>>)
    requires EndsListing(pages)
    ensures r == PrWithCommitsJs(payload, c, pages, commits, details)
  {
    var (workspace, repository, issueKey) := RequestTargetJs(payload, c);
    if !Truthy(workspace) || !Truthy(repository) || issueKey == "" {
      return Threw(RequiredMessage);
    }
    r := ResolvePr(workspace.value, repository.value, issueKey, ConfigJs.ValidateBitbucketCredentials(c),
                   pages, commits, details, MapCommitsJs);
  }

  /** Where the builds part: an explicitly empty workspace in the payload is replaced
      by the configured one in TypeScript but rejected in JavaScript. */
  lemma EmptyWorkspaceDiffers(payload: Payload, c: AppConfig, pages: seq<PageReply>, commits: CommitsReply,
                              details: DetailsReply)
    requires EndsListing(pages)
    requires payload.workspace == Some("") && Truthy(c.workspace)
    requires Truthy(payload.repository) && Truthy(payload.issueKey)
    ensures PrWithCommitsJs(payload, c, pages, commits, details) == Threw(RequiredMessage)
    ensures PrWithCommits(payload, c, pages, commits, details)
         == PrWithCommitsFor(ValidateBitbucketCredentials(c), payload.issueKey.value, pages, commits, details, MapCommits)
  {
  }

  /** With every payload value present and non-empty, both builds search for the
      same key in the same repository and agree on whether a pull request is found. */
  lemma FullPayloadBuildsAgree(payload: Payload, c: AppConfig, pages: seq<PageReply>, commits: CommitsReply,
                               details: DetailsReply)
    requires EndsListing(pages)
    requires Truthy(payload.workspace) && Truthy(payload.repository) && Truthy(payload.issueKey)
    requires Truthy(c.username) && Truthy(c.appPassword)
    ensures RequestTargetJs(payload, c) == RequestTarget(payload, c)
    ensures var ts := PrWithCommits(payload, c, pages, commits, details);
      var js := PrWithCommitsJs(payload, c, pages, commits, details);
      && ts.Returned? == js.Returned?
      && (ts.Threw? ==> ts == Threw(js.message))
      && (ts.Returned? ==> ts.value.PrFound? == js.value.PrFound?)
      && (ts.Returned? && ts.value.PrNotFound? ==> ts.value == PrNotFound(js.value.error))
      && (ts.Returned? && ts.value.PrFound? ==>
           ts.value.pr == js.value.pr && ts.value.commitCount == js.value.commitCount)
  {
  }
}
