/** The configuration service: the built-in defaults, the stored
    configuration file merged over them, `update_config` and `get`.  The
    file is an input: `None` when it is missing, cannot be opened or is
    not valid JSON, and otherwise the JSON object it holds.  The two API keys that
    the defaults take from the environment are constructor parameters. */
module ConfigService {
  import opened Wrappers

  /** A JSON value as `json.load` returns it (numbers are integers here). */
  datatype Value =
    | Null
    | Flag(b: bool)
    | Number(n: int)
    | Text(s: string)
    | Array(items: seq<Value>)
    | Object(fields: map<string, Value>)

  /** Python truthiness of a JSON value. */
  predicate Truthy(v: Value) {
    match v
    case Null => false
    case Flag(b) => b
    case Number(n) => n != 0
    case Text(s) => s != ""
    case Array(items) => items != []
    case Object(fields) => fields != map[]
  }

  const PromptTemplate: string :=
    "I want you to write a detailed prompt for an AI to generate a modern painting that is being shown on an 7.3\" e-ink display that supports 6 colors (black, white, red, green, blue, yellow) with a resolution of 800x480. The generated image should reflect today.\n" +
    "\n" +
    "*Todays information*\n" +
    "Date: {today_date}\n" +
    "Weather: {weather_summary}\n" +
    "Calendar events:\n" +
    "{events_text}\n" +
    "\n" +
    "ONLY RETURN YOUR PROMPT SUGGESTION, WITHOUT ANYTHING ELSE (DISMISS SOMETHING LIKE `Here's your prompt`).\n" +
    "**Never** mention the e-ink display, because it will result in an e-ink display being rendered. Also make sure, that an artistic painting is generated instead of anything that looks like an info screen.\n" +
    "Always generate a single picture and never split it into multiple images. Try to combine every occassion that the calendar, the weather and the date has to offer into a single image.\n" +
    "\n" +
    "Make it vintage-poster style. Let it only generate an image without any text that is drawn onto the image like title, date or something like that."

  /** `default_config`, with the environment's API keys and the prompt
      template. */
  function DefaultConfig(openWeatherKey: string, geminiKey: string, template: string): map<string, Value> {
    map[
      "apple_id" := Text(""),
      "app_password" := Text(""),
      "calendar_url" := Text(""),
      "weather_location" := Text("Berlin"),
      "openweather_api_key" := Text(openWeatherKey),
      "gemini_api_key" := Text(geminiKey),
      "color_display_refresh_time" := Text("06:00"),
      "ai_prompt_template" := Text(template)
    ]
  }

  /** The default configuration has exactly these keys; in particular no
      refresh interval, so the scheduler's own fallback applies. */
  lemma DefaultConfigKeys(openWeatherKey: string, geminiKey: string, template: string)
    ensures DefaultConfig(openWeatherKey, geminiKey, template).Keys ==
      {"apple_id", "app_password", "calendar_url", "weather_location", "openweather_api_key",
       "gemini_api_key", "color_display_refresh_time", "ai_prompt_template"}
    ensures "display_refresh_interval" !in DefaultConfig(openWeatherKey, geminiKey, template)
    ensures DefaultConfig(openWeatherKey, geminiKey, template)["color_display_refresh_time"] == Text("06:00")
    ensures !Truthy(DefaultConfig(openWeatherKey, geminiKey, template)["apple_id"])
    ensures !Truthy(DefaultConfig(openWeatherKey, geminiKey, template)["app_password"])
  {
  }

  /** `get_config`: a copy of the defaults updated with the stored object,
      or a copy of the defaults alone when there is no usable file. */
  function Merged(defaults: map<string, Value>, stored: Option<map<string, Value>>): (m: map<string, Value>)
    ensures m.Keys == defaults.Keys + (if stored.Some? then stored.value.Keys else {})
    ensures stored.None? ==> m == defaults
    ensures stored.Some? ==> forall k :: k in stored.value ==> m[k] == stored.value[k]
    ensures forall k :: k in defaults && (stored.None? || k !in stored.value) ==> m[k] == defaults[k]
  {
    if stored.None? then defaults else defaults + stored.value
  }

  /** `config.get(key, default)` on a merged configuration. */
  function GetOr(config: map<string, Value>, key: string, default: Value): (v: Value)
    ensures key in config ==> v == config[key]
    ensures key !in config ==> v == default
  {
    if key in config then config[key] else default
  }

  /** Merging the defaults over a file that already holds a merged
      configuration gives that configuration back: what `update_config`
      writes is exactly what the next `get_config` reads. */
  lemma MergeOfMerged(defaults: map<string, Value>, stored: Option<map<string, Value>>,
                      newConfig: map<string, Value>)
    ensures var written := Merged(defaults, stored) + newConfig;
      Merged(defaults, Some(written)) == written
  {
    var written := Merged(defaults, stored) + newConfig;
    assert (defaults + written).Keys == written.Keys;
  }

  /** The default argument of `get` matters only for keys that are neither
      defaults nor stored. */
  lemma DefaultArgumentUnused(defaults: map<string, Value>, stored: Option<map<string, Value>>,
                              key: string, d1: Value, d2: Value)
    requires key in defaults
    ensures GetOr(Merged(defaults, stored), key, d1) == GetOr(Merged(defaults, stored), key, d2)
  {
  }

  /** The configuration service: the defaults fixed at construction and the
      current contents of `config.json`. */
  class Config {
    const defaults: map<string, Value>
    var stored: Option<map<string, Value>>

    constructor(openWeatherKey: string, geminiKey: string, file: Option<map<string, Value>>)
      ensures defaults == DefaultConfig(openWeatherKey, geminiKey, PromptTemplate) && stored == file
    {
      defaults := DefaultConfig(openWeatherKey, geminiKey, PromptTemplate);
      stored := file;
    }

    /** `get_config`. */
    function GetConfig(): (m: map<string, Value>)
      reads this
      ensures defaults.Keys <= m.Keys
      ensures m == Merged(defaults, stored)
    {
      Merged(defaults, stored)
    }

    /** `update_config`: the merged configuration updated with `newConfig`
        is written back; keys not in `newConfig` keep their value. */
    method UpdateConfig(newConfig: map<string, Value>)
      modifies this
      ensures stored == Some(old(GetConfig()) + newConfig)
      ensures GetConfig() == old(GetConfig()) + newConfig
      ensures forall k :: k in old(GetConfig()) && k !in newConfig ==> GetConfig()[k] == old(GetConfig())[k]
    {
      var currentConfig := GetConfig();
      currentConfig := currentConfig + newConfig;
      MergeOfMerged(defaults, stored, newConfig);
      stored := Some(currentConfig);
    }

    /** `get(key, default)`. */
    function Get(key: string, default: Value): (v: Value)
      reads this
      ensures v == GetOr(GetConfig(), key, default)
    {
      GetOr(GetConfig(), key, default)
    }
  }
}
