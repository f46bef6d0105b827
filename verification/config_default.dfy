/** The default `config` command (src/commands/config/default.js): the two
    prompts, and the configuration and credentials objects built from their
    answers before they are merged into the stored files. The terminal, the
    environment and `mergeConfig` are not part of this model: the answers,
    `GENAI_ENDPOINT` and the default endpoint are parameters. */
module ConfigDefault {

  import opened Wrappers
  import opened JsValues

  /** The objects handed to `mergeConfig`. */
  datatype Config = Config(configuration: map<string, JsValue>, credentials: map<string, JsValue>)

  /** `a ?? b` on optional strings: only a missing value falls through, an
      empty string does not. */
  function Coalesce(a: Option<string>, b: string): (r: string)
    ensures a.Some? ==> r == a.value
    ensures a.None? ==> r == b
  {
    match a
    case Some(s) => s
    case None => b
  }

  /** The endpoint question, showing the flag, else `GENAI_ENDPOINT`, else
      the default endpoint. */
  function EndpointPrompt(flag: Option<string>, env: Option<string>, defaultEndpoint: string): (r: string)
    ensures flag.Some? ==> r == "Endpoint (" + flag.value + "): "
    ensures flag.None? && env.Some? ==> r == "Endpoint (" + env.value + "): "
    ensures flag.None? && env.None? ==> r == "Endpoint (" + defaultEndpoint + "): "
  {
    "Endpoint (" + Coalesce(flag, Coalesce(env, defaultEndpoint)) + "): "
  }

  /** The API-key question, showing the flag or "none". */
  function ApiKeyPrompt(flag: Option<string>): (r: string)
    ensures flag.Some? ==> r == "API Key (" + flag.value + "): "
    ensures flag.None? ==> r == "API Key (none): "
  {
    "API Key (" + Coalesce(flag, "none") + "): "
  }

  /** A profile name is used only when truthy, that is non-empty. */
  predicate HasProfile(profile: Option<string>) {
    profile.Some? && |profile.value| > 0
  }

  /** One of the two objects: `{}` or `{profiles: {[profile]: {}}}`, with
      `key` set to the answer at the top level or under the profile when
      the answer is non-empty. */
  function Section(profile: Option<string>, key: string, answer: string): (r: map<string, JsValue>)
    ensures !HasProfile(profile) ==> r.Keys == if |answer| > 0 then {key} else {}
    ensures !HasProfile(profile) && |answer| > 0 ==> r[key] == Str(answer)
    ensures HasProfile(profile) ==>
      && r.Keys == {"profiles"}
      && r["profiles"].Obj? && r["profiles"].own.Keys == {profile.value}
      && r["profiles"].own[profile.value].Obj?
      && r["profiles"].own[profile.value].own.Keys == (if |answer| > 0 then {key} else {})
      && Prop(Prop(r["profiles"], profile.value), key) == (if |answer| > 0 then Str(answer) else Undefined)
  {
    var entry := if |answer| > 0 then map[key := Str(answer)] else map[];
    if HasProfile(profile) then
      map["profiles" := PlainObject(map[profile.value := PlainObject(entry)])]
    else
      entry
  }

  /** The configuration built from the two answers: a profile, when given,
      scopes both objects alike; otherwise each holds at most its one
      answer. */
  function BuildConfig(profile: Option<string>, endpoint: string, apiKey: string): (r: Config)
    ensures HasProfile(profile) <==> "profiles" in r.configuration
    ensures HasProfile(profile) <==> "profiles" in r.credentials
    ensures r.configuration.Keys <= {"profiles", "endpoint"}
    ensures r.credentials.Keys <= {"profiles", "apiKey"}
    ensures "endpoint" in r.configuration <==> !HasProfile(profile) && |endpoint| > 0
    ensures "apiKey" in r.credentials <==> !HasProfile(profile) && |apiKey| > 0
  {
    Config(Section(profile, "endpoint", endpoint), Section(profile, "apiKey", apiKey))
  }

  /** With no profile and two empty answers nothing is written. */
  lemma EmptyAnswersWriteNothing()
    ensures BuildConfig(None, "", "") == Config(map[], map[])
    ensures BuildConfig(Some(""), "", "") == Config(map[], map[])
  {
  }

  /** The endpoint lands only in the configuration and the API key only in
      the credentials. */
  lemma SecretsStayInCredentials(profile: Option<string>, endpoint: string, apiKey: string)
    requires |endpoint| > 0 && |apiKey| > 0
    ensures !HasProfile(profile) ==>
      && "apiKey" !in BuildConfig(profile, endpoint, apiKey).configuration
      && "endpoint" !in BuildConfig(profile, endpoint, apiKey).credentials
      && BuildConfig(profile, endpoint, apiKey).credentials["apiKey"] == Str(apiKey)
    ensures HasProfile(profile) ==>
      && Prop(Prop(BuildConfig(profile, endpoint, apiKey).configuration["profiles"], profile.value), "apiKey") == Undefined
      && Prop(Prop(BuildConfig(profile, endpoint, apiKey).credentials["profiles"], profile.value), "apiKey") == Str(apiKey)
  {
  }
}
