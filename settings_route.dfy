/**
 * The settings endpoint of app/api/settings/route.ts: GET maps the stored
 * strings to `AppSettings` with defaults, POST writes the fields present in a
 * partial update as strings and answers the settings read back.
 */
module SettingsRoute {
  import opened Wrappers
  import opened Types
  import opened Db
  import opened AppConfig

  /** `allSettings[key] !== "false"`. */
  predicate Flag(values: map<string, string>, key: string) {
    !(key in values && values[key] == "false")
  }

  /** `allSettings[key] || fallback`. */
  function StringOr(values: map<string, string>, key: string, fallback: string): string {
    if key in values && values[key] != "" then values[key] else fallback
  }

  /** The `settings` object GET (and POST, after writing) builds from `getAll()`. */
  function Decode(values: map<string, string>): AppSettings {
    AppSettings(
      StringOr(values, "feedUrl", DefaultFeedUrl),
      StringOr(values, "cronSchedule", DefaultCronSchedule),
      StringOr(values, "discordWebhookUrl", ""),
      Flag(values, "enableNotifications"),
      Flag(values, "enableScheduler"))
  }

  /** The route's decoding from `getAll()` and the cache's decoding from `get` agree. */
  lemma DecodeAgrees(values: map<string, string>)
    ensures Decode(values) == DecodeFromGet(values)
  {
  }

  /** `Partial<AppSettings>`: None for a field that is undefined. */
  datatype SettingsUpdate = SettingsUpdate(
    feedUrl: Option<string>,
    cronSchedule: Option<string>,
    discordWebhookUrl: Option<string>,
    enableNotifications: Option<bool>,
    enableScheduler: Option<bool>)

  /** `String(b)`. */
  function BoolString(b: bool): (r: string)
    ensures r == "false" <==> !b
  {
    if b then "true" else "false"
  }

  function Put(m: map<string, string>, key: string, value: Option<string>): map<string, string> {
    if value.Some? then m[key := value.value] else m
  }

  function PutFlag(m: map<string, string>, key: string, value: Option<bool>): map<string, string> {
    if value.Some? then m[key := BoolString(value.value)] else m
  }

  /** `dbUpdates`: one entry for each field of `updates` that is not undefined. */
  function EncodeUpdates(u: SettingsUpdate): (m: map<string, string>)
    ensures "feedUrl" in m <==> u.feedUrl.Some?
    ensures "cronSchedule" in m <==> u.cronSchedule.Some?
    ensures "discordWebhookUrl" in m <==> u.discordWebhookUrl.Some?
    ensures "enableNotifications" in m <==> u.enableNotifications.Some?
    ensures "enableScheduler" in m <==> u.enableScheduler.Some?
    ensures m.Keys <= {"feedUrl", "cronSchedule", "discordWebhookUrl", "enableNotifications", "enableScheduler"}
  {
    var m := Put(map[], "feedUrl", u.feedUrl);
    var m := Put(m, "cronSchedule", u.cronSchedule);
    var m := Put(m, "discordWebhookUrl", u.discordWebhookUrl);
    var m := PutFlag(m, "enableNotifications", u.enableNotifications);
    PutFlag(m, "enableScheduler", u.enableScheduler)
  }

  /** A boolean written by POST reads back as the same boolean. */
  lemma BoolRoundTrip(values: map<string, string>, u: SettingsUpdate)
    ensures u.enableNotifications.Some? ==>
      Decode(values + EncodeUpdates(u)).enableNotifications == u.enableNotifications.value
    ensures u.enableScheduler.Some? ==>
      Decode(values + EncodeUpdates(u)).enableScheduler == u.enableScheduler.value
  {
    var m := EncodeUpdates(u);
    if u.enableNotifications.Some? {
      assert m["enableNotifications"] == BoolString(u.enableNotifications.value);
    }
    if u.enableScheduler.Some? {
      assert m["enableScheduler"] == BoolString(u.enableScheduler.value);
    }
  }

  /**
   * A non-empty string written by POST reads back unchanged; an empty feed URL
   * or schedule reads back as its default, and an empty webhook as "".
   */
  lemma StringRoundTrip(values: map<string, string>, u: SettingsUpdate)
    ensures u.feedUrl.Some? ==>
      Decode(values + EncodeUpdates(u)).feedUrl == if u.feedUrl.value != "" then u.feedUrl.value else DefaultFeedUrl
    ensures u.cronSchedule.Some? ==>
      Decode(values + EncodeUpdates(u)).cronSchedule == if u.cronSchedule.value != "" then u.cronSchedule.value else DefaultCronSchedule
    ensures u.discordWebhookUrl.Some? ==>
      Decode(values + EncodeUpdates(u)).discordWebhookUrl == u.discordWebhookUrl.value
  {
    var m := EncodeUpdates(u);
    if u.feedUrl.Some? {
      assert m["feedUrl"] == u.feedUrl.value;
    }
    if u.cronSchedule.Some? {
      assert m["cronSchedule"] == u.cronSchedule.value;
    }
    if u.discordWebhookUrl.Some? {
      assert m["discordWebhookUrl"] == u.discordWebhookUrl.value;
    }
  }

  /** A field absent from the update keeps the value it decoded to before. */
  lemma AbsentFieldsKept(values: map<string, string>, u: SettingsUpdate)
    ensures var before, after := Decode(values), Decode(values + EncodeUpdates(u));
      && (u.feedUrl.None? ==> after.feedUrl == before.feedUrl)
      && (u.cronSchedule.None? ==> after.cronSchedule == before.cronSchedule)
      && (u.discordWebhookUrl.None? ==> after.discordWebhookUrl == before.discordWebhookUrl)
      && (u.enableNotifications.None? ==> after.enableNotifications == before.enableNotifications)
      && (u.enableScheduler.None? ==> after.enableScheduler == before.enableScheduler)
  {
  }

  /** What the endpoint answers: the status and, on success, the settings. */
  datatype SettingsResponse = SettingsResponse(status: int, settings: Option<AppSettings>)

  /** `GET`. */
  function Get(db: SettingsDb): (r: SettingsResponse)
    reads db
    ensures r.status == 200 && r.settings == Some(Decode(db.values))
  {
    SettingsResponse(200, Some(Decode(db.values)))
  }

  /**
   * `POST`: without `updates`, 400 and nothing written; otherwise the present
   * fields are written, the cache is cleared and the settings read back.
   */
  method Post(updates: Option<SettingsUpdate>, db: SettingsDb, config: AppConfig) returns (r: SettingsResponse)
    requires config.Valid()
    modifies db, config
    ensures config.Valid()
    ensures updates.None? ==>
      && r == SettingsResponse(400, None)
      && db.values == old(db.values) && config.cachedSettings == old(config.cachedSettings)
    ensures updates.Some? ==>
      && db.values == old(db.values) + EncodeUpdates(updates.value)
      && config.cachedSettings.None?
      && r == SettingsResponse(200, Some(Decode(db.values)))
  {
    if updates.None? {
      return SettingsResponse(400, None);
    }
    var dbUpdates := EncodeUpdates(updates.value);
    db.SetMultiple(dbUpdates);
    config.ReloadSettings();
    r := SettingsResponse(200, Some(Decode(db.values)));
  }
}
