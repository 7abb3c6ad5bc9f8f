/**
 * The onboarding endpoint of app/api/onboarding/route.ts: GET reports whether
 * onboarding finished, POST validates the webhook, stores the first settings
 * with defaults and marks onboarding complete.
 */
module OnboardingRoute {
  import opened Wrappers
  import opened Strings
  import opened Types
  import opened Db
  import opened AppConfig

  const OnboardingKey := "onboardingComplete"

  /** `GET`: `settingsDb.get("onboardingComplete") === "true"`. */
  function Get(db: SettingsDb): (complete: bool)
    reads db
    ensures complete <==> OnboardingKey in db.values && db.values[OnboardingKey] == "true"
  {
    db.Get(OnboardingKey) == Some("true")
  }

  /**
   * The request body; an absent string field is "", and an absent or
   * non-boolean flag is None.
   */
  datatype OnboardingBody = OnboardingBody(
    discordWebhookUrl: string,
    feedUrl: string,
    cronSchedule: string,
    enableNotifications: Option<bool>,
    enableScheduler: Option<bool>)

  /** `!discordWebhookUrl || !discordWebhookUrl.trim()`. */
  predicate MissingWebhook(body: OnboardingBody) {
    body.discordWebhookUrl == "" || Trim(body.discordWebhookUrl) == ""
  }

  /** `String(flag !== false)`. */
  function FlagString(flag: Option<bool>): (r: string)
    ensures r == "false" <==> flag == Some(false)
    ensures r == "true" || r == "false"
  {
    if flag == Some(false) then "false" else "true"
  }

  /** The record passed to `setMultiple`. */
  function OnboardingValues(body: OnboardingBody): map<string, string> {
    map[
      "discordWebhookUrl" := Trim(body.discordWebhookUrl),
      "feedUrl" := if body.feedUrl != "" then body.feedUrl else DefaultFeedUrl,
      "cronSchedule" := if body.cronSchedule != "" then body.cronSchedule else DefaultCronSchedule,
      "enableNotifications" := FlagString(body.enableNotifications),
      "enableScheduler" := FlagString(body.enableScheduler),
      OnboardingKey := "true"
    ]
  }

  /** A webhook is rejected exactly when it is empty or only whitespace. */
  lemma ValidationSpec(body: OnboardingBody)
    ensures MissingWebhook(body) <==> AllWhitespace(body.discordWebhookUrl)
  {
    TrimEmptyIff(body.discordWebhookUrl);
  }

  /**
   * After a successful POST the settings decode to the trimmed webhook, the given
   * feed and schedule or their defaults, and flags that are off only when passed
   * `false`; onboarding reads as complete.
   */
  lemma StoredOnboarding(values: map<string, string>, body: OnboardingBody)
    requires !MissingWebhook(body)
    ensures var after := values + OnboardingValues(body);
      && DecodeFromGet(after) == AppSettings(
           if body.feedUrl != "" then body.feedUrl else DefaultFeedUrl,
           if body.cronSchedule != "" then body.cronSchedule else DefaultCronSchedule,
           Trim(body.discordWebhookUrl),
           body.enableNotifications != Some(false),
           body.enableScheduler != Some(false))
      && OnboardingKey in after && after[OnboardingKey] == "true"
  {
    var after := values + OnboardingValues(body);
    assert after["discordWebhookUrl"] == Trim(body.discordWebhookUrl);
    assert DefaultFeedUrl != "" && DefaultCronSchedule != "";
    assert Lookup(after, "feedUrl") == Some(if body.feedUrl != "" then body.feedUrl else DefaultFeedUrl);
    assert Lookup(after, "cronSchedule") == Some(if body.cronSchedule != "" then body.cronSchedule else DefaultCronSchedule);
    assert after["enableNotifications"] == FlagString(body.enableNotifications);
    assert after["enableScheduler"] == FlagString(body.enableScheduler);
    assert OnboardingValues(body)[OnboardingKey] == "true";
  }

  /** The stored webhook has no whitespace at either end. */
  lemma StoredWebhookTrimmed(body: OnboardingBody)
    requires !MissingWebhook(body)
    ensures var w := OnboardingValues(body)["discordWebhookUrl"];
      w != "" && !IsWhitespace(w[0]) && !IsWhitespace(w[|w| - 1])
  {
    TrimEdges(body.discordWebhookUrl);
  }

  /**
   * `POST`: a missing webhook gives 400 and writes nothing; otherwise the
   * settings are written, the cache is cleared and the answer is 200.
   */
  method Post(body: OnboardingBody, db: SettingsDb, config: AppConfig) returns (status: int)
    requires config.Valid()
    modifies db, config
    ensures config.Valid()
    ensures MissingWebhook(body) ==>
      status == 400 && db.values == old(db.values) && config.cachedSettings == old(config.cachedSettings)
    ensures !MissingWebhook(body) ==>
      status == 200 && db.values == old(db.values) + OnboardingValues(body) && config.cachedSettings.None?
  {
    if MissingWebhook(body) {
      return 400;
    }
    db.SetMultiple(OnboardingValues(body));
    config.ReloadSettings();
    status := 200;
  }
}
