/** src/config.js: the same settings record and `isConfigured` as src/config.ts; only
    the credential check's message differs. */
module ConfigJs {
  import opened Text
  import opened Config

  const CredentialsMessage := "Pls set BITBUCKET_USERNAME and BITBUCKET_APP_PASSWORD in .env.local"

  /** `validateBitbucketCredentials` of src/config.js: it accepts exactly the settings
      the TypeScript build accepts, and refuses with its own message. */
  function ValidateBitbucketCredentials(c: AppConfig): (r: Validation)
    ensures r.Accepted? <==> Config.ValidateBitbucketCredentials(c).Accepted?
    ensures r.Refused? ==> r.message == CredentialsMessage
  {
    CheckCredentials(c, CredentialsMessage)
  }
}
