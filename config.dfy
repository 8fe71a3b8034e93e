/** `loadConfig` of supabase/functions/_shared/config.ts: the runtime
    configuration read from the process environment, with three required
    secrets and two defaulted values. The environment is a map from variable
    name to value; a name outside the map is `Deno.env.get` returning
    `undefined`. */
module Config {
  import opened Wrappers

  type Env = map<string, string>

  datatype PaystackConfig = PaystackConfig(secretKey: string, baseUrl: string)

  datatype MailConfig = MailConfig(resendApiKey: Option<string>, fromAddress: string)

  datatype RuntimeConfig = RuntimeConfig(
    siteUrl: string,
    timezone: string,
    qrSecret: string,
    paystack: PaystackConfig,
    mail: MailConfig)

  const PaystackBaseUrl: string := "https://api.paystack.co"
  const DefaultTimezone: string := "Africa/Lagos"
  const DefaultMailFrom: string := "AFCM Tickets <tickets@example.com>"

  /** `Deno.env.get(name)`. */
  function Get(env: Env, name: string): Option<string> {
    if name in env then Some(env[name]) else None
  }

  /** `!value` for a string-or-undefined: undefined and the empty string. */
  predicate Falsy(v: Option<string>) {
    v.None? || v.value == ""
  }

  /** `Deno.env.get(name) ?? fallback`: the fallback only when the variable is
      absent, so a variable set to "" stays "". */
  function GetOr(env: Env, name: string, fallback: string): (r: string)
    ensures name in env ==> r == env[name]
    ensures name !in env ==> r == fallback
  {
    Get(env, name).GetOr(fallback)
  }

  /** The configuration, or the message of the Error that `loadConfig` throws. */
  function LoadConfig(env: Env): (r: Result<RuntimeConfig, string>)
    // the three secrets are checked in this order; the first one missing is reported
    ensures Falsy(Get(env, "PAYSTACK_SECRET_KEY")) ==> r == Failure("Missing PAYSTACK_SECRET_KEY")
    ensures !Falsy(Get(env, "PAYSTACK_SECRET_KEY")) && Falsy(Get(env, "SITE_URL"))
      ==> r == Failure("Missing SITE_URL")
    ensures !Falsy(Get(env, "PAYSTACK_SECRET_KEY")) && !Falsy(Get(env, "SITE_URL")) && Falsy(Get(env, "QR_SECRET"))
      ==> r == Failure("Missing QR_SECRET")
    // success exactly when all three are present and non-empty
    ensures r.Success? <==>
      !Falsy(Get(env, "PAYSTACK_SECRET_KEY")) && !Falsy(Get(env, "SITE_URL")) && !Falsy(Get(env, "QR_SECRET"))
    // on success the secrets are the environment's values, unchanged
    ensures r.Success? ==>
      && r.value.paystack.secretKey == env["PAYSTACK_SECRET_KEY"] != ""
      && r.value.siteUrl == env["SITE_URL"] != ""
      && r.value.qrSecret == env["QR_SECRET"] != ""
      && r.value.mail.resendApiKey == Get(env, "RESEND_API_KEY")
      && r.value.paystack.baseUrl == PaystackBaseUrl
      && r.value.timezone == GetOr(env, "TZ", DefaultTimezone)
      && r.value.mail.fromAddress == GetOr(env, "EMAIL_FROM", DefaultMailFrom)
  {
    var paystackSecret := Get(env, "PAYSTACK_SECRET_KEY");
    var siteUrl := Get(env, "SITE_URL");
    var timezone := GetOr(env, "TZ", DefaultTimezone);
    var qrSecret := Get(env, "QR_SECRET");
    var mailFrom := GetOr(env, "EMAIL_FROM", DefaultMailFrom);
    var resendApiKey := Get(env, "RESEND_API_KEY");
    if Falsy(paystackSecret) then Failure("Missing PAYSTACK_SECRET_KEY")
    else if Falsy(siteUrl) then Failure("Missing SITE_URL")
    else if Falsy(qrSecret) then Failure("Missing QR_SECRET")
    else Success(RuntimeConfig(
      siteUrl.value,
      timezone,
      qrSecret.value,
      PaystackConfig(paystackSecret.value, PaystackBaseUrl),
      MailConfig(resendApiKey, mailFrom)))
  }
}
