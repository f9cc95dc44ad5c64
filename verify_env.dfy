/** The start-up check of the environment's API key. The three auxiliary
    service keys are looked at only to print warnings, so they never change
    the verdict. */
module VerifyEnv {
  import opened Wrappers

  const Placeholder: string := "your_actual_api_key_here"

  /** The environment variables the check reads. */
  datatype Env = Env(
    apiKey: Option<string>,
    alphaVantageKey: Option<string>,
    iexCloudKey: Option<string>,
    coinGeckoKey: Option<string>)

  function VerifyApiKey(env: Env): (ok: bool)
    ensures env.apiKey.None? || env.apiKey.value == "" ==> !ok
    ensures env.apiKey == Some(Placeholder) ==> !ok
    ensures env.apiKey.Some? && |env.apiKey.value| < 10 ==> !ok
    ensures env.apiKey.Some? && |env.apiKey.value| >= 10 && env.apiKey.value != Placeholder ==> ok
  {
    if env.apiKey.None? || env.apiKey.value == "" then false
    else if env.apiKey.value == Placeholder || |env.apiKey.value| < 10 then false
    else true
  }

  /** Present or absent, the auxiliary keys do not affect the result. */
  lemma AuxiliaryKeysIgnored(e1: Env, e2: Env)
    requires e1.apiKey == e2.apiKey
    ensures VerifyApiKey(e1) == VerifyApiKey(e2)
  {
  }
}
