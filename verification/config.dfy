/** The advisory configuration check of email-service.ts (checkEmailConfig). */
module Config {
  import opened Wrappers
  import opened JsValues
  import opened Types

  /** The outcome of the check: the status record that is reported to the
      operator, and the boolean the function returns. */
  datatype ConfigReport = ConfigReport(config: EmailConfig, configured: bool)

  /** `v ? 'OK' : 'MISSING'` on an environment variable. */
  function StatusOf(v: Option<string>): (s: Status)
    ensures s == Ok <==> v.Some? && |v.value| > 0
  {
    if Truthy(v) then Ok else Missing
  }

  /** checkEmailConfig: never fails; reports each credential and whether both
      required ones (account and app password) are present and non-empty.
      The `recipient` entry is derived from the account variable, exactly as
      the source writes it, and plays no part in the verdict. */
  function CheckEmailConfig(env: Env): (r: ConfigReport)
    ensures r.configured <==>
              && env.gmailUser.Some? && |env.gmailUser.value| > 0
              && env.gmailAppPassword.Some? && |env.gmailAppPassword.value| > 0
    ensures r.configured <==> r.config.user == Ok && r.config.password == Ok
    ensures !r.configured ==> r.config.user == Missing || r.config.password == Missing
    ensures r.config.user == Ok <==> env.gmailUser.Some? && |env.gmailUser.value| > 0
    ensures r.config.password == Ok <==> env.gmailAppPassword.Some? && |env.gmailAppPassword.value| > 0
    ensures r.config.recipient == r.config.user
  {
    var config := EmailConfig(
      StatusOf(env.gmailUser),
      StatusOf(env.gmailAppPassword),
      StatusOf(env.gmailUser));
    ConfigReport(config, config.user == Ok && config.password == Ok)
  }

  /** The default-recipient variable has no influence on the check at all. */
  lemma CheckIgnoresDefaultRecipient(env: Env, d: Option<string>)
    ensures CheckEmailConfig(env.(defaultRecipient := d)) == CheckEmailConfig(env)
  {
  }

  /** The verdict depends only on the truthiness of the two credentials, not on
      their values. */
  lemma CheckDependsOnlyOnPresence(e1: Env, e2: Env)
    requires Truthy(e1.gmailUser) == Truthy(e2.gmailUser)
    requires Truthy(e1.gmailAppPassword) == Truthy(e2.gmailAppPassword)
    ensures CheckEmailConfig(e1) == CheckEmailConfig(e2)
  {
  }
}
