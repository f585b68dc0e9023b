/** The Bitbucket settings of src/config.ts, passed in as a record instead of being
    read from the process environment. */
module Config {
  import opened Text

  /** The four settings; each may be absent or empty. */
  datatype AppConfig = AppConfig(
    username: Option<string>,
    appPassword: Option<string>,
    workspace: Option<string>,
    repositorySlug: Option<string>)

  /** `validateBitbucketCredentials` either returns `true` or throws with a message. */
  datatype Validation = Accepted | Refused(message: string)

  const CredentialsMessage :=
    "Set BITBUCKET_USERNAME and BITBUCKET_APP_PASSWORD in Forge environment variables (or .env.local for local dev)"

  /** Every setting is present and non-empty. */
  predicate IsConfigured(c: AppConfig)
  {
    Truthy(c.username) && Truthy(c.appPassword) && Truthy(c.workspace) && Truthy(c.repositorySlug)
  }

  /** The credential check both builds share: only the two credentials are checked,
      and a refusal carries the build's own message. */
  function CheckCredentials(c: AppConfig, message: string): (r: Validation)
    ensures r == Accepted <==> Truthy(c.username) && Truthy(c.appPassword)
    ensures r.Refused? ==> r.message == message
  {
    if !Truthy(c.username) || !Truthy(c.appPassword) then Refused(message) else Accepted
  }

  /** `validateBitbucketCredentials`: only the two credentials are checked. */
  function ValidateBitbucketCredentials(c: AppConfig): (r: Validation)
    ensures r == Accepted <==> Truthy(c.username) && Truthy(c.appPassword)
    ensures r.Refused? ==> r.message == CredentialsMessage
  {
    CheckCredentials(c, CredentialsMessage)
  }

  /** The workspace and repository slug play no part in the credential check. */
  lemma CredentialsIgnoreRepository(c: AppConfig, workspace: Option<string>, repositorySlug: Option<string>)
    ensures ValidateBitbucketCredentials(c.(workspace := workspace, repositorySlug := repositorySlug))
         == ValidateBitbucketCredentials(c)
  {
  }

  /** A configured app always passes the credential check. */
  lemma ConfiguredPassesValidation(c: AppConfig)
    requires IsConfigured(c)
    ensures ValidateBitbucketCredentials(c) == Accepted
  {
  }
}
