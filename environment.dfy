/**
 * Configuration selection (src/configs/environment.ts): a record injected at run time on `window.env`
 * is preferred to the record fixed at build time when it carries a real client id; the chosen record's
 * missing values then take defaults.
 */
module Environment {
  import opened Common

  /** The client id a deployment leaves in place when it did not substitute a real one. */
  const CLIENT_ID_PLACEHOLDER: string := "__VITE_SPOTIFY_CLIENT_ID__"
  const DEFAULT_APP_ENV: string := "local"

  /** One source of configuration values; a missing value is `None`. */
  datatype EnvRecord = EnvRecord(appEnv: Option<string>, clientId: Option<string>, clientSecret: Option<string>, appUrl: Option<string>)

  /** The resolved configuration. */
  datatype Config = Config(appEnv: string, clientId: string, clientSecret: string, appUrl: string)

  /** A JavaScript string in a boolean position: true exactly when present and non-empty. */
  predicate Truthy(v: Option<string>)
  {
    v.Some? && v.value != ""
  }

  /** `v || fallback` */
  function OrElse(v: Option<string>, fallback: string): (r: string)
    ensures Truthy(v) ==> r == v.value
    ensures !Truthy(v) ==> r == fallback
  {
    if Truthy(v) then v.value else fallback
  }

  /** The run-time record is usable when it exists and its client id is present, non-empty and not the placeholder. */
  predicate RuntimeUsable(runtime: Option<EnvRecord>)
  {
    runtime.Some? && Truthy(runtime.value.clientId) && runtime.value.clientId.value != CLIENT_ID_PLACEHOLDER
  }

  /** `getEffectiveEnv()`, with `window.env` as `runtime` and the build-time record as `build`. */
  function GetEffectiveEnv(runtime: Option<EnvRecord>, build: EnvRecord): (r: EnvRecord)
    ensures RuntimeUsable(runtime) ==> r == runtime.value
    ensures !RuntimeUsable(runtime) ==> r == build
  {
    if runtime.Some? && Truthy(runtime.value.clientId) && runtime.value.clientId.value != CLIENT_ID_PLACEHOLDER then
      runtime.value
    else
      build
  }

  /** `environment`: the chosen record's values, each falling back to its default when missing or empty. */
  function MakeEnvironment(runtime: Option<EnvRecord>, build: EnvRecord): Config
  {
    Config(
      OrElse(GetEffectiveEnv(runtime, build).appEnv, DEFAULT_APP_ENV),
      OrElse(GetEffectiveEnv(runtime, build).clientId, ""),
      OrElse(GetEffectiveEnv(runtime, build).clientSecret, ""),
      OrElse(GetEffectiveEnv(runtime, build).appUrl, ""))
  }

  /**
   * Every value comes from one record: the run-time record exactly when it is usable, the build-time one
   * otherwise. The application environment is never empty, falling back to `"local"`, and the other
   * values fall back to the empty string.
   */
  lemma EnvironmentFromOneRecord(runtime: Option<EnvRecord>, build: EnvRecord)
    ensures var e := MakeEnvironment(runtime, build);
      var chosen := if RuntimeUsable(runtime) then runtime.value else build;
      && e.appEnv == (if Truthy(chosen.appEnv) then chosen.appEnv.value else DEFAULT_APP_ENV)
      && e.clientId == (if Truthy(chosen.clientId) then chosen.clientId.value else "")
      && e.clientSecret == (if Truthy(chosen.clientSecret) then chosen.clientSecret.value else "")
      && e.appUrl == (if Truthy(chosen.appUrl) then chosen.appUrl.value else "")
      && e.appEnv != ""
  {
  }

  /**
   * A usable run-time record wins even for the values it lacks: the build-time record never fills them in.
   */
  lemma NoFieldFallback(runtime: EnvRecord, build: EnvRecord)
    requires RuntimeUsable(Some(runtime))
    requires !Truthy(runtime.clientSecret) && !Truthy(runtime.appUrl)
    ensures MakeEnvironment(Some(runtime), build).clientSecret == ""
    ensures MakeEnvironment(Some(runtime), build).appUrl == ""
    ensures MakeEnvironment(Some(runtime), build).clientId == runtime.clientId.value
  {
  }

  /** A run-time record that still holds the placeholder, or no client id, is ignored entirely. */
  lemma PlaceholderIgnored(runtime: EnvRecord, build: EnvRecord)
    requires runtime.clientId == Some(CLIENT_ID_PLACEHOLDER) || !Truthy(runtime.clientId)
    ensures MakeEnvironment(Some(runtime), build) == MakeEnvironment(None, build)
  {
  }
}
