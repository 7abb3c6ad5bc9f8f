/**
 * The records of the feed filter: feed items, filters and their criteria, and the
 * application settings. An optional string or list of the original records is a
 * plain string or sequence here, absence being "" or [] (every use in the core
 * tests such a field with `||` or `length > 0`, which treat the two alike).
 */
module Types {
  import opened Wrappers

  /**
   * A date as the source holds it: the text, and the instant `new Date(text)`
   * denotes, None when that is an Invalid Date.
   */
  datatype DateText = DateText(text: string, time: Option<int>)

  /** An unset date bound (an absent or empty `minDate`/`maxDate`). */
  const NoDate := DateText("", None)

  /** A normalised feed entry. */
  datatype FeedItem = FeedItem(
    title: string,
    link: string,
    pubDate: DateText,
    description: string,
    content: string,
    guid: string)

  datatype FilterCriteria = FilterCriteria(
    titleIncludes: seq<string>,
    titleExcludes: seq<string>,
    descriptionIncludes: seq<string>,
    descriptionExcludes: seq<string>,
    minDate: DateText,
    maxDate: DateText)

  /** Criteria with no keyword and no date bound. */
  const EmptyCriteria := FilterCriteria([], [], [], [], NoDate, NoDate)

  datatype Filter = Filter(id: string, name: string, enabled: bool, criteria: FilterCriteria)

  datatype AppSettings = AppSettings(
    feedUrl: string,
    cronSchedule: string,
    discordWebhookUrl: string,
    enableNotifications: bool,
    enableScheduler: bool)

  const DefaultFeedUrl := "https://hdencode.org/feed/"
  const DefaultCronSchedule := "*/5 * * * *"

  const DefaultSettings := AppSettings(DefaultFeedUrl, DefaultCronSchedule, "", true, true)

  /** The names of filters, in order (`filters.map((f) => f.name)`). */
  function FilterNames(filters: seq<Filter>): (r: seq<string>)
    ensures |r| == |filters| && forall i :: 0 <= i < |filters| ==> r[i] == filters[i].name
  {
    seq(|filters|, i requires 0 <= i < |filters| => filters[i].name)
  }
}
