/** Reading integer settings with a default, as `IConfiguration.GetValue<int>(key, default)`
    does when the key is absent. */
module Configuration {

  /** The settings present, already parsed as integers. */
  type Settings = map<string, int>

  function GetValue(settings: Settings, key: string, default: int): (v: int)
    ensures key in settings ==> v == settings[key]
    ensures key !in settings ==> v == default
  {
    if key in settings then settings[key] else default
  }
}
