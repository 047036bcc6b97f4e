/**
 * The configuration records the core reads, limited to the fields the
 * triggers, the application state and the pack installer access:
 * per-output background, day/night and weather maps, the active theme pool
 * and a pack name. Keys of the per-output maps are output names or the
 * wildcard `"*"`.
 */
module Config {
  import opened Types

  /** Only `Fill`, the default, is named by the core; other modes are carried by name. */
  datatype FillMode = Fill | Other(name: string)

  datatype BackgroundConfig = BackgroundConfig(image: Option<string>, fillMode: FillMode)

  /** `day` and `night` are image paths or labels; `dayRange` is an `"HH-HH"` string. */
  datatype DayTimeConfig = DayTimeConfig(day: string, night: string, dayRange: Option<string>)

  /** Weather-state key (`"sunny"`, `"raining"`, ...) to image path; coordinates are not modelled. */
  datatype WeatherConfig = WeatherConfig(weather: map<string, string>)

  datatype Config = Config(
    background: Option<map<string, BackgroundConfig>>,
    timeConfig: Option<map<string, DayTimeConfig>>,
    weather: Option<map<string, WeatherConfig>>,
    pool: Option<string>,
    name: Option<string>)
}
