/** The CORS policy: the list of allowed origins, built once from the
    environment, and the decision taken for each request's `Origin`. */
module Cors {
  import opened Js
  import opened Config

  const VITE_DEV_ORIGIN: string := "http://localhost:5173"
  const SAME_PORT_ORIGIN: string := "http://localhost:3000"
  const CORS_ERROR: string := "N\U{e3}o permitido pelo CORS"

  /** The list built once at load: the frontend URL (or its default) and
      the two local origins, then, pushed after them, the production
      frontend exactly when it is set and not empty. */
  function AllowedOrigins(env: Env): (r: seq<string>)
    ensures |r| == if Truthy(env.productionFrontendUrl) then 4 else 3
    ensures r[..3] == [GetFrontendUrl(env), VITE_DEV_ORIGIN, SAME_PORT_ORIGIN]
    ensures |r| == 4 ==> r[3] == env.productionFrontendUrl.value
  {
    [GetFrontendUrl(env), VITE_DEV_ORIGIN, SAME_PORT_ORIGIN]
      + (if Truthy(env.productionFrontendUrl) then [env.productionFrontendUrl.value] else [])
  }

  datatype Decision = Allow | Deny(error: string)

  /** The `origin` callback. A missing or empty origin is let through in
      development by the first test and in every environment by `|| !origin`;
      any other origin is allowed exactly when it is in the list. */
  function OriginDecision(origin: Option<string>, nodeEnv: Option<string>, allowed: seq<string>): (d: Decision)
    ensures d.Allow? <==> !Truthy(origin) || origin.value in allowed
    ensures d.Deny? ==> d.error == CORS_ERROR
  {
    if !Truthy(origin) && nodeEnv != Some("production") then Allow
    else if (origin.Some? && origin.value in allowed) || !Truthy(origin) then Allow
    else Deny(CORS_ERROR)
  }

  /** NODE_ENV does not change any decision. */
  lemma NodeEnvIrrelevant(origin: Option<string>, e1: Option<string>, e2: Option<string>, allowed: seq<string>)
    ensures OriginDecision(origin, e1, allowed) == OriginDecision(origin, e2, allowed)
  {
  }

  /** The configured frontend and the two local development origins are
      always accepted, and so is the production frontend when it is set. */
  lemma ConfiguredOriginsAllowed(env: Env, nodeEnv: Option<string>)
    ensures OriginDecision(Some(GetFrontendUrl(env)), nodeEnv, AllowedOrigins(env)) == Allow
    ensures OriginDecision(Some(VITE_DEV_ORIGIN), nodeEnv, AllowedOrigins(env)) == Allow
    ensures OriginDecision(Some(SAME_PORT_ORIGIN), nodeEnv, AllowedOrigins(env)) == Allow
    ensures Truthy(env.productionFrontendUrl) ==>
      OriginDecision(env.productionFrontendUrl, nodeEnv, AllowedOrigins(env)) == Allow
  {
  }

  /** Without PRODUCTION_FRONTEND_URL, a present origin is accepted only if it
      is FRONTEND_URL (or its default) or one of the two local origins. */
  lemma OnlyListedOrigins(env: Env, origin: string, nodeEnv: Option<string>)
    requires origin != "" && !Truthy(env.productionFrontendUrl)
    ensures OriginDecision(Some(origin), nodeEnv, AllowedOrigins(env)) == Allow
      <==> origin == GetFrontendUrl(env) || origin == VITE_DEV_ORIGIN || origin == SAME_PORT_ORIGIN
  {
  }
}
