/** The process-wide configuration of the server: the fixed price and the
    two URL getters, each a `||` fallback chain over environment values. */
module Config {
  import opened Js

  /** The environment variables the core reads; None is an unset variable. */
  datatype Env = Env(
    nodeEnv: Option<string>,
    frontendUrl: Option<string>,
    productionFrontendUrl: Option<string>,
    webhookUrl: Option<string>,
    backendUrl: Option<string>)

  /** The price of a site, R$ 29,90, fixed on the server. */
  const SITE_PRICE: real := 29.90

  const DEFAULT_FRONTEND_URL: string := "http://localhost:5173"
  const DEFAULT_BACKEND_URL: string := "http://localhost:3000"

  /** `FRONTEND_URL || 'http://localhost:5173'`: the variable when it is set
      and not empty, the local development server otherwise. */
  function GetFrontendUrl(env: Env): (url: string)
    ensures url != ""
    ensures Truthy(env.frontendUrl) ==> url == env.frontendUrl.value
    ensures !Truthy(env.frontendUrl) ==> url == DEFAULT_FRONTEND_URL
  {
    match Or(env.frontendUrl, Some(DEFAULT_FRONTEND_URL))
    case Some(u) => u
    case None => DEFAULT_FRONTEND_URL
  }

  /** `WEBHOOK_URL || BACKEND_URL || 'http://localhost:3000'`: the first of
      the two variables that is set and not empty, else the local backend. */
  function GetWebhookUrl(env: Env): (url: string)
    ensures url != ""
    ensures Truthy(env.webhookUrl) ==> url == env.webhookUrl.value
    ensures !Truthy(env.webhookUrl) && Truthy(env.backendUrl) ==> url == env.backendUrl.value
    ensures !Truthy(env.webhookUrl) && !Truthy(env.backendUrl) ==> url == DEFAULT_BACKEND_URL
  {
    match Or(Or(env.webhookUrl, env.backendUrl), Some(DEFAULT_BACKEND_URL))
    case Some(u) => u
    case None => DEFAULT_BACKEND_URL
  }

  /** An empty variable is the same as an unset one for both getters. */
  lemma EmptyIsUnset(env: Env)
    ensures GetFrontendUrl(env.(frontendUrl := Some(""))) == GetFrontendUrl(env.(frontendUrl := None))
    ensures GetWebhookUrl(env.(webhookUrl := Some(""))) == GetWebhookUrl(env.(webhookUrl := None))
    ensures GetWebhookUrl(env.(backendUrl := Some(""))) == GetWebhookUrl(env.(backendUrl := None))
  {
  }
}
