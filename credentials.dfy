/** `get_api_credentials`: where the API key and endpoint come from. The
    secrets store, the `.env` loader and the process environment are
    modelled as their outcomes. */
module Credentials {
  import opened Wrappers

  /** What the three places the key can come from hold.
      `secretKey` is `st.secrets['API_KEY']` (`None` when the lookup raises);
      `dotenvLoads` says whether importing and running `load_dotenv`
      succeeds; `envKey` and `envBase` are `OPENAI_API_KEY` and
      `OPENAI_API_BASE` in the environment after that. */
  datatype Sources = Sources(secretKey: Option<string>, dotenvLoads: bool,
                             envKey: Option<string>, envBase: Option<string>)

  /** The pair `(api_key, api_base)`. */
  datatype ApiCredentials = ApiCredentials(apiKey: Option<string>, apiBase: string)

  /** The endpoint used with a key from the secrets store, and the default
      for `OPENAI_API_BASE`. */
  const HostedBase: string := "https://twapi.openai-hk.com/v1"
  /** The endpoint reported when no key is found. */
  const FallbackBase: string := "https://api.openai.com/v1"

  /** Python truthiness of an optional string: present and non-empty. */
  predicate HasKey(k: Option<string>)
  {
    k.Some? && k.value != ""
  }

  /** The secrets store wins whenever its lookup succeeds, even with an
      empty value; otherwise a non-empty environment key is used with the
      configured endpoint; otherwise there is no key. A failing `.env`
      loader is swallowed, so the environment is then never consulted. */
  function GetApiCredentials(src: Sources): (r: ApiCredentials)
    ensures src.secretKey.Some? ==> r.apiKey == src.secretKey
    ensures r.apiKey.Some? ==>
              (r.apiKey == src.secretKey && r.apiBase == HostedBase)
              || (src.secretKey.None? && src.dotenvLoads && HasKey(src.envKey) && r.apiKey == src.envKey
                  && r.apiBase == (if src.envBase.Some? then src.envBase.value else HostedBase))
    ensures r.apiKey.None? ==> src.secretKey.None? && r.apiBase == FallbackBase
  {
    if src.secretKey.Some? then ApiCredentials(src.secretKey, HostedBase)
    else if src.dotenvLoads && HasKey(src.envKey) then
      ApiCredentials(src.envKey, if src.envBase.Some? then src.envBase.value else HostedBase)
    else ApiCredentials(None, FallbackBase)
  }

  /** A usable key is resolved exactly when the secrets store holds a
      non-empty one, or has none and the environment (reached through a
      working loader) does. */
  lemma {:induction false} KeyResolved(src: Sources)
    ensures HasKey(GetApiCredentials(src).apiKey)
        <==> HasKey(src.secretKey)
             || (src.secretKey.None? && src.dotenvLoads && HasKey(src.envKey))
  {
  }

  /** Without a key the reported endpoint is always the fallback one, and an
      absent key is never paired with the hosted endpoint. */
  lemma {:induction false} NoKeyFallback(src: Sources)
    ensures GetApiCredentials(src).apiKey.None? ==> GetApiCredentials(src).apiBase == FallbackBase
    ensures GetApiCredentials(src).apiKey.Some? ==> HasKey(GetApiCredentials(src).apiKey) || src.secretKey == Some("")
  {
  }
}
