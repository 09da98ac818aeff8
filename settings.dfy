/**
 * The plugin's settings record (src/open_ai/settings.rs): credentials, model
 * name and answer token budget. Loading it from a JSON file is not modelled;
 * a `Settings` value is constructed explicitly and only read afterwards.
 */
module OpenAiSettings {

  /** Rust's `u16`. */
  newtype u16 = x: int | 0 <= x < 0x1_0000

  datatype Settings = Settings(apiKey: string, orgId: string, model: string, maxTokens: u16)

  /** `Settings::default()`: no credentials, model "gpt-3.5-turbo", 512 tokens. */
  function Default(): (s: Settings)
    ensures s.apiKey == [] && s.orgId == []
    ensures s.model == "gpt-3.5-turbo"
    ensures s.maxTokens == 512
  {
    Settings("", "", "gpt-3.5-turbo", 512)
  }

  function GetApiKey(s: Settings): (r: string)
    ensures r == s.apiKey
  {
    s.apiKey
  }

  function GetOrgId(s: Settings): (r: string)
    ensures r == s.orgId
  {
    s.orgId
  }

  function GetModel(s: Settings): (r: string)
    ensures r == s.model
  {
    s.model
  }

  /** The token budget is a `u16`, so it always lies in 0..65535. */
  function GetMaxTokens(s: Settings): (r: u16)
    ensures r == s.maxTokens
    ensures 0 <= r as int <= 65535
  {
    s.maxTokens
  }

  /** The getters of the default record report the documented defaults. */
  lemma DefaultGetters()
    ensures GetApiKey(Default()) == "" && GetOrgId(Default()) == ""
    ensures GetModel(Default()) == "gpt-3.5-turbo" && GetMaxTokens(Default()) == 512
  {
  }
}
