/**
 * The settings cache of config/app.ts: `getSettings` decodes the settings table
 * once on the server and keeps the result until `reloadSettings` clears it; on
 * the client it always answers the defaults.
 */
module AppConfig {
  import opened Wrappers
  import opened Types
  import opened Db

  /** `settingsDb.get(key) !== "false"`: a flag is on unless stored exactly "false". */
  predicate FlagFromGet(values: map<string, string>, key: string) {
    Lookup(values, key) != Some("false")
  }

  /** The object `getSettings` builds from `settingsDb.get`. */
  function DecodeFromGet(values: map<string, string>): (s: AppSettings)
    ensures s.feedUrl != "" && s.cronSchedule != ""
  {
    AppSettings(
      Lookup(values, "feedUrl").GetOr(DefaultFeedUrl),
      Lookup(values, "cronSchedule").GetOr(DefaultCronSchedule),
      Lookup(values, "discordWebhookUrl").GetOr(""),
      FlagFromGet(values, "enableNotifications"),
      FlagFromGet(values, "enableScheduler"))
  }

  /** Both flags decode to true unless the stored value is exactly "false". */
  lemma DecodeFlags(values: map<string, string>)
    ensures DecodeFromGet(values).enableNotifications <==>
      !("enableNotifications" in values && values["enableNotifications"] == "false")
    ensures DecodeFromGet(values).enableScheduler <==>
      !("enableScheduler" in values && values["enableScheduler"] == "false")
  {
  }

  /**
   * An empty or missing feed URL decodes to the default feed, an empty or missing
   * schedule to every five minutes and an empty or missing webhook to ""; a
   * non-empty stored value is taken as it is.
   */
  lemma DecodeStrings(values: map<string, string>)
    ensures var s := DecodeFromGet(values);
      && (s.feedUrl == if "feedUrl" in values && values["feedUrl"] != "" then values["feedUrl"] else DefaultFeedUrl)
      && (s.cronSchedule == if "cronSchedule" in values && values["cronSchedule"] != "" then values["cronSchedule"] else DefaultCronSchedule)
      && (s.discordWebhookUrl == if "discordWebhookUrl" in values then values["discordWebhookUrl"] else "")
  {
  }

  /** An empty table and the freshly seeded table both decode to the defaults. */
  lemma DecodeDefaults()
    ensures DecodeFromGet(map[]) == DefaultSettings
    ensures DecodeFromGet(DefaultSettingValues) == DefaultSettings
  {
  }

  /** `cachedSettings`, with whether the code runs where `window` is undefined. */
  class AppConfig {
    const isServer: bool
    var cachedSettings: Option<AppSettings>

    /** Only the server ever fills the cache. */
    ghost predicate Valid()
      reads this
    {
      !isServer ==> cachedSettings.None?
    }

    constructor(isServer: bool)
      ensures Valid() && this.isServer == isServer && cachedSettings.None?
    {
      this.isServer := isServer;
      cachedSettings := None;
    }

    /**
     * `getSettings()`: on the server with an empty cache, decode the table (or
     * the defaults when loading throws, `loadFails`) into the cache; answer the
     * cache, or the defaults when there is none.
     */
    method GetSettings(db: SettingsDb, loadFails: bool) returns (s: AppSettings)
      requires Valid()
      modifies this
      ensures Valid()
      ensures isServer && old(cachedSettings).None? ==>
        cachedSettings == Some(if loadFails then DefaultSettings else DecodeFromGet(db.values))
      ensures old(cachedSettings).Some? ==> cachedSettings == old(cachedSettings)
      ensures !isServer ==> cachedSettings.None? && s == DefaultSettings
      ensures s == cachedSettings.GetOr(DefaultSettings)
    {
      if isServer && cachedSettings.None? {
        if loadFails {
          cachedSettings := Some(DefaultSettings);
        } else {
          cachedSettings := Some(DecodeFromGet(db.values));
        }
      }
      s := cachedSettings.GetOr(DefaultSettings);
    }

    /** `reloadSettings()`. */
    method ReloadSettings()
      requires Valid()
      modifies this
      ensures Valid() && cachedSettings.None?
    {
      cachedSettings := None;
    }
  }
}
