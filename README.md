# RSS feed filter — a Dafny model

rss-feed-filter is a Next.js service that watches one RSS feed. On a cron
schedule it fetches the feed and normalises every entry to a `FeedItem`. It
drops entries whose guid is already in the processed-items table. It then
matches each new item against the user's enabled keyword filters, one filter at
a time. An item that matches at least one filter goes into one Discord webhook
message, which carries at most ten embeds. Every new item is marked processed.
When the post succeeds, each match is also logged.

The settings (feed URL, cron schedule, webhook, two flags), the filters and the
processed items live in SQLite. The settings are read through a process-wide
cache. HTTP endpoints edit the settings, run the onboarding and manage the
filters. A browser-side store in `localStorage` keeps its own copy of the
filters. Two React components hold the form and step logic that feeds these
endpoints.

The model follows the program's structure, one module per source file:

- `FilterEngine`: the keyword and date predicate and `applyFilters`.
- `DiscordNotifier`: HTML stripping, embed and message construction, and the webhook send. The HTTP answer is a parameter.
- `Db`: the settings, filters and processed-items tables as classes over maps and sequences, plus the notification log the feed check writes to.
- `FeedChecker`: one feed check. `Tick` is the pure specification of a whole check. `FeedChecker.CheckFeed` performs it on the stores and is proved equal to `Tick`.
- `AppConfig`: the settings cache.
- `SettingsRoute`, `OnboardingRoute`, `FiltersRoute`: the three endpoints.
- `ClientStorage`: the `localStorage` filter store.
- `FilterForm`: the filter-form handlers.
- `OnboardingModal`: the onboarding wizard's steps.
- `Scheduler`: start, stop and run-once.

Shared modules:

- `Wrappers` holds `Option`.
- `Strings` holds lower-casing, substring search, `trim`, `join` and decimal text.
- `Seqs` holds `FirstIndex` (`findIndex`) and `Select` (`Array.prototype.filter`), with their laws.
- `Types` holds the records of `types/feed.ts` and `types/settings.ts`, the default settings and `FilterNames`.

The clock, the feed fetch and the webhook's answer are parameters:

- `nowMs` is `Date.now()`, and `unixepoch()` is `nowMs / 1000`.
- `nowIso` is `new Date().toISOString()`.
- `FeedFetch` is the parsed feed or a fetch failure.
- `WebhookResponse` says whether the webhook answered ok or the request threw.

A date string stands together with the value `new Date(text)` gives it (`DateText`). Its `time` is None for an Invalid Date.

## Model

| member | source | states |
|---|---|---|
| FilterEngine.MatchesCriteria | lib/filter.ts:18-73 | an item passes exactly when every title-include keyword occurs in its title and no title-exclude keyword does, the same holds for the description (falling back to the content), and each set date bound with a valid date is respected |
| FilterEngine.DescriptionOf | lib/filter.ts:39 | the text description keywords search is the description, else the content, else "" |
| FilterEngine.KeywordCaseInsensitive | lib/filter.ts:21-23 | keyword matching ignores letter case on both the keyword and the text |
| FilterEngine.TitleExcludeWins | lib/filter.ts:29-35 | an item whose title holds any exclude keyword is rejected, whatever its includes say |
| FilterEngine.EmptyTitleExcludeRejectsAll | lib/filter.ts:29-34 | an empty string among the title excludes rejects every item, since every title contains "" |
| FilterEngine.DescriptionFallback | lib/filter.ts:38-55 | with an empty description, description keywords are searched in the content |
| FilterEngine.DateBoundsInclusive | lib/filter.ts:58-70 | an item dated exactly at the min or the max bound passes the date checks |
| FilterEngine.InvalidDateNeverRejects | lib/filter.ts:58-70 | an item whose date is an Invalid Date passes both bounds; a bound that is an Invalid Date is never violated, and with both bounds invalid every item passes the date checks |
| FilterEngine.EmptyCriteriaMatchAll | lib/filter.ts:18-73 | criteria with no keywords and no dates accept every item |
| FilterEngine.ApplyNoEnabledFilters | lib/filter.ts:4-8 | with no enabled filter, applyFilters returns the items unchanged |
| FilterEngine.ApplyIgnoresDisabled | lib/filter.ts:4 | disabled filters have no influence on the result |
| FilterEngine.ApplyFiltersSpec | lib/filter.ts:3-15 | the result is a subsequence of the items, holding exactly the items every enabled filter accepts, each with as many copies as the input has |
| FilterEngine.ApplyFiltersIdempotent | lib/filter.ts:3-15 | applying the same filters twice gives the result of applying them once |
| FilterEngine.ApplySingle | lib/filter.ts:3-15 | applyFilters([item], [filter]) is non-empty exactly when the filter is disabled or its criteria accept the item |
| DiscordNotifier.NotifierWebhook | lib/discord-notifier.ts:26-28 | an explicit non-empty URL wins; otherwise the configured webhook URL is used |
| DiscordNotifier.StripTags | lib/discord-notifier.ts:165 | removing `<...>` tags never lengthens the text and only keeps characters of the input |
| DiscordNotifier.NoTagRemains | lib/discord-notifier.ts:165 | after tag removal no `<` is followed later by a `>` |
| DiscordNotifier.ReplaceAll | lib/discord-notifier.ts:166-171 | replacing a pattern by a text no longer than it never lengthens the string |
| DiscordNotifier.StripHtml | lib/discord-notifier.ts:163-173 | the stripped text (tags removed, the six entity replacements applied in order, trimmed) is never longer than the HTML |
| DiscordNotifier.TruncatedDescription | lib/discord-notifier.ts:139-143 | a description of at most 300 characters is only stripped; a longer one is the first 300 characters of the stripped text plus "..."; the result is at most 303 characters |
| DiscordNotifier.CreateEmbed | lib/discord-notifier.ts:138-161 | the embed carries the item's title and link, the blurple colour, the truncated stripped text of the item's description, else its content, else "", one non-inline "Matched Filters" field whose value is the matched filters' names joined by ", " in filter order, and the item's date or the current time |
| DiscordNotifier.CreateMessage | lib/discord-notifier.ts:129-136 | a single-item message has no content and exactly that item's embed |
| DiscordNotifier.BatchTailStartsWithSpace | lib/discord-notifier.ts:91-94 | the text after the bold count always starts with a space |
| DiscordNotifier.BatchContentCount | lib/discord-notifier.ts:91-94 | the batch content starts with `**` followed by decimal digits that read back as the number of matches |
| DiscordNotifier.BatchContentPlural | lib/discord-notifier.ts:94 | "items" is used exactly when more than one item matched |
| DiscordNotifier.BatchContentNote | lib/discord-notifier.ts:92-93 | the "(showing first 10)" note appears exactly when more than 10 items matched |
| DiscordNotifier.BuildBatchMessage | lib/discord-notifier.ts:86-96 | the batch message has the count content and one embed for each of the first min(n, 10) matches, in order |
| DiscordNotifier.FifteenMatches | lib/discord-notifier.ts:86-96 | with 15 matches, exactly the first 10 are embedded and the note is shown |
| DiscordNotifier.SendBatchNotification | lib/discord-notifier.ts:71-127 | no webhook means failure and no post; no matches means success and no post; otherwise the batch message is posted and success means the webhook answered ok |
| DiscordNotifier.SendNotification | lib/discord-notifier.ts:30-69 | no webhook means failure and no post; otherwise the single-item message is posted and success means the webhook answered ok |
| Db.InsertOrIgnoreIdempotent | lib/db.ts:264-270 | a second insert of the same guid changes nothing, whatever its title or time |
| Db.CleanupPartition | lib/db.ts:282-290 | cleanup splits the rows into retained and deleted: disjoint, covering all rows, sizes adding up, and a row is kept exactly when processed at or after the cutoff |
| Db.RetentionBoundary | lib/db.ts:282-290 | with 30 days, a row processed exactly 30 days ago is kept and one a second older is deleted |
| Db.ProcessedItemsDb.constructor | lib/db.ts:51-55 | the processed-items table starts empty |
| Db.ProcessedItemsDb.Add | lib/db.ts:264-270 | INSERT OR IGNORE: a new guid gets a row with its title and the current time; an existing row is kept; afterwards `has(guid)` holds |
| Db.ProcessedItemsDb.Cleanup | lib/db.ts:282-290 | the rows processed before the cutoff are deleted, the rest kept unchanged, and the count of deleted rows is returned |
| Db.SentSince | lib/feed-checker.ts:104 | the notification cleanup keeps, in order, exactly the log's records sent at or after the cutoff |
| Db.NotificationsDb.constructor | lib/feed-checker.ts:92-100 | the notification log starts empty with id counter 1 |
| Db.NotificationsDb.Add | lib/feed-checker.ts:92-99 | appends one record with the next id and the current time, and advances the counter |
| Db.NotificationsDb.Cleanup | lib/feed-checker.ts:104 | keeps exactly the records sent at or after the cutoff, in order, returns how many were dropped and leaves the counter |
| Db.Lookup | lib/db.ts:92-98 | `get(key)` gives a value exactly when the key is stored with a non-empty value (an empty value reads as null) |
| Db.SettingsDb.constructor | lib/db.ts:31-35 | the settings table starts empty |
| Db.SettingsDb.Get | lib/db.ts:92-98 | reads through `Lookup` on the current table |
| Db.SettingsDb.Set | lib/db.ts:100-106 | INSERT OR REPLACE: the key now maps to the value, every other key unchanged |
| Db.SettingsDb.SetMultiple | lib/db.ts:117-130 | every given key now holds its given value and every other key is unchanged (the table is the old one overridden by the record) |
| Db.SettingsDb.InitializeDefaults | lib/db.ts:63-84 | an empty table is seeded with exactly the six default settings; a non-empty one is left as it is |
| Db.RowToFilter | lib/db.ts:148-158 | a row reads back as a filter with its id, name, enabled flag and four keyword lists, and no date bounds |
| Db.FindRow | lib/db.ts:161-176 | finds an index holding the id, and finds none exactly when no row has the id |
| Db.DeleteRows | lib/db.ts:249-251 | deleting never lengthens the table |
| Db.FiltersDb.constructor | lib/db.ts:38-48 | the filters table starts empty, with unique ids |
| Db.FiltersDb.GetAll | lib/db.ts:135-159 | every row, in insertion order, read back as a filter |
| Db.FiltersDb.Get | lib/db.ts:161-189 | null exactly when no row has the id; otherwise the filter read from the row with that id |
| Db.FiltersDb.Create | lib/db.ts:191-216 | the row is appended when its id is not taken; a taken id (PRIMARY KEY violation) changes nothing and reports failure; ids stay unique |
| Db.FiltersDb.Update | lib/db.ts:218-247 | with criteria, the row with the id gets the new name, the enabled flag (`enabled ? 1 : 0`) and the lists, and other rows are unchanged; without criteria the call throws before writing |
| Db.FiltersDb.Delete | lib/db.ts:249-251 | the table becomes the rows with another id; ids stay unique |
| Db.DeleteKeepsUnique | lib/db.ts:38-40 | deleting keeps the primary-key property |
| Db.SubsequenceKeepsUnique | lib/db.ts:38-40 | any subsequence of a table with unique ids has unique ids |
| Db.SubsequenceMembers | lib/db.ts:249-251 | every row of a subsequence is a row of the table |
| Db.CreateThenGet | lib/db.ts:191-216 | after a successful create, `get(id)` finds the new row and reads back its name, flag and lists |
| Db.CreateDropsDates | lib/db.ts:191-216 | storing a filter and reading it back keeps its keyword lists and drops its date bounds |
| Db.UpdateMissingIsNoop | lib/db.ts:233-236 | updating an id no row has changes nothing |
| Db.UpdateSpec | lib/db.ts:218-247 | update rewrites exactly the rows with that id and leaves the others |
| Db.DeleteSpec | lib/db.ts:249-251 | delete keeps, in order, exactly the rows with another id |
| FeedChecker.Normalise | lib/feed-checker.ts:23-30 | title and link default to ""; the guid is the guid, else the link, and empty exactly when both are; the date is pubDate, else isoDate, else now; the description is the snippet, else the content; the content is the content, else the snippet |
| FeedChecker.NormaliseAll | lib/feed-checker.ts:23-30 | one normalised item per entry, in order |
| FeedChecker.NewItemsSpec | lib/feed-checker.ts:47-49 | the new items are a subsequence of the feed, holding exactly the items with a non-empty guid not yet processed, each with as many copies as the feed has |
| FeedChecker.MatchedFiltersSpec | lib/feed-checker.ts:63-67 | the filters attributed to an item are a subsequence of the enabled filters, holding exactly those whose criteria accept it |
| FeedChecker.MatchItems | lib/feed-checker.ts:60-74 | the items of the matches, in order |
| FeedChecker.MatchItemsConcat | lib/feed-checker.ts:62-80 | taking the items distributes over concatenation of matches |
| FeedChecker.MatchesOfItems | lib/feed-checker.ts:62-74 | the matched items are exactly the new items accepted by at least one enabled filter, in feed order |
| FeedChecker.MatchesOfFilters | lib/feed-checker.ts:63-70 | every match carries a non-empty list, namely the filters that accept its item |
| FeedChecker.MarkProcessedSpec | lib/feed-checker.ts:76-79 | after the loop the processed keys are the old ones plus every non-empty guid of the new items, old rows unchanged, and each added row carries the current time and the title of the first new item with its guid |
| FeedChecker.LogRecords | lib/feed-checker.ts:91-100 | one record per match, in order, with consecutive ids from the counter, the item's guid, title, link, description (else its content), date and filter names, and the time of sending |
| FeedChecker.TickFetchFailed | lib/feed-checker.ts:118-120 | a failed fetch is caught and changes no store |
| FeedChecker.TickNoEnabledFilters | lib/feed-checker.ts:35-44 | with no enabled filter the check returns before writing anything, cleanup included |
| FeedChecker.TickNoNewItems | lib/feed-checker.ts:47-57 | with no new item the check returns before writing anything, cleanup included |
| FeedChecker.TickMarksEveryNewItem | lib/feed-checker.ts:76-80 | every new item ends up processed whatever the match or send result, and old rows survive exactly when the 30-day cleanup keeps them |
| FeedChecker.TickLogsOnlyOnSuccess | lib/feed-checker.ts:83-109 | a send happens exactly when something matched, a webhook is configured and it answered ok; only then is one record per match logged and the 7-day cleanup run; otherwise the log is unchanged |
| FeedChecker.TickProcessedRows | lib/feed-checker.ts:76-115 | after a processing check, the processed rows are the marked rows after the 30-day cleanup |
| FeedChecker.RemovedRowWasOld | lib/db.ts:282-290 | a guid that was stored or just marked and is gone after the cleanup was stored before the cutoff: rows marked now survive the same cleanup |
| FeedChecker.TickDedup | lib/feed-checker.ts:47-49 | a check right after a processing check sees as new only items whose rows the 30-day cleanup just removed |
| FeedChecker.ConjunctiveVersusAttributed | lib/feed-checker.ts:63-67 | filters are attributed one at a time: an item matching one of two enabled filters is notified with that filter, although `applyFilters` over both rejects it |
| FeedChecker.FeedChecker.constructor | lib/feed-checker.ts:13-15 | the checker's notifier uses the configured webhook URL |
| FeedChecker.FeedChecker.CheckFeed | lib/feed-checker.ts:17-121 | performing the check on the tables gives the outcome and the new stores that `Tick` specifies for the old stores |
| FeedChecker.MatchAndMark | lib/feed-checker.ts:60-80 | the loop collects exactly `MatchesOf` the new items and marks each of them processed |
| FeedChecker.LogMatches | lib/feed-checker.ts:91-100 | the loop appends exactly `LogRecords` for the matches and advances the counter by their number |
| FeedChecker.NotifyAndClean | lib/feed-checker.ts:83-115 | the send, the log on success with its cleanup, and the processed-items cleanup give the outcome and stores `AfterMatching` specifies |
| AppConfig.DecodeFromGet | config/app.ts:13-19 | the decoded feed URL and schedule are never empty |
| AppConfig.DecodeFlags | config/app.ts:17-18 | each flag is on exactly when its stored value is not exactly "false" |
| AppConfig.DecodeStrings | config/app.ts:14-16 | each string setting is its stored non-empty value, else its default |
| AppConfig.DecodeDefaults | lib/db.ts:63-84 | an empty table and the freshly seeded table both decode to the default settings |
| AppConfig.AppConfig.constructor | config/app.ts:4 | the cache starts empty |
| AppConfig.AppConfig.GetSettings | config/app.ts:6-42 | on the server an empty cache is filled from the table, or with the defaults when loading throws; a full cache is kept; off the server the cache stays empty and the defaults are returned; the answer is the cache or the defaults |
| AppConfig.AppConfig.ReloadSettings | config/app.ts:45-47 | empties the cache |
| SettingsRoute.DecodeAgrees | app/api/settings/route.ts:9-15 | the route's decoding from `getAll()` equals the cache's decoding from `get` |
| SettingsRoute.BoolString | app/api/settings/route.ts:49-51 | `String(flag)` is "false" exactly for false |
| SettingsRoute.EncodeUpdates | app/api/settings/route.ts:41-51 | the record written holds exactly the keys of the fields that are present |
| SettingsRoute.BoolRoundTrip | app/api/settings/route.ts:48-66 | a flag written by POST decodes back to the same flag |
| SettingsRoute.StringRoundTrip | app/api/settings/route.ts:43-63 | a non-empty string written by POST decodes back to itself, and an empty one to the default |
| SettingsRoute.AbsentFieldsKept | app/api/settings/route.ts:41-53 | a field absent from the update decodes as it did before |
| SettingsRoute.Get | app/api/settings/route.ts:6-17 | GET answers 200 with the table's decoding |
| SettingsRoute.Post | app/api/settings/route.ts:28-68 | without updates: 400 and nothing written; otherwise the encoded updates override the table, the cache is emptied and the answer is 200 with the new decoding |
| OnboardingRoute.Get | app/api/onboarding/route.ts:5-10 | onboarding reads as complete exactly when the stored flag is "true" |
| OnboardingRoute.FlagString | app/api/onboarding/route.ts:44-45 | `String(flag !== false)` is "false" only for an explicit false |
| OnboardingRoute.ValidationSpec | app/api/onboarding/route.ts:32-37 | a webhook is rejected exactly when it is empty or all whitespace |
| OnboardingRoute.StoredOnboarding | app/api/onboarding/route.ts:40-47 | after an accepted POST the settings decode to the trimmed webhook, the given feed and schedule or their defaults, and flags off only when passed false; onboarding reads complete |
| OnboardingRoute.StoredWebhookTrimmed | app/api/onboarding/route.ts:41 | the stored webhook has no surrounding whitespace |
| OnboardingRoute.Post | app/api/onboarding/route.ts:20-52 | a missing webhook gives 400 and writes nothing; otherwise the six settings are written, the cache is emptied and the answer is 200 |
| FiltersRoute.NormaliseCriteria | app/api/filters/route.ts:37-42 | each absent keyword list is stored as [] |
| FiltersRoute.FailureChangesNothing | app/api/filters/route.ts:20-112 | the status is 200, 400 or 500, and a non-200 answer leaves the table as it was |
| FiltersRoute.AddSpec | app/api/filters/route.ts:26-44 | no filter is 400; no criteria or a taken id is 500; otherwise the filter is appended with missing lists as [] and `enabled` true only when given true |
| FiltersRoute.MissingIdRejected | app/api/filters/route.ts:47-85 | update, delete and toggle without an id answer 400 and change nothing |
| FiltersRoute.UpdateWithoutCriteria | app/api/filters/route.ts:53-65 | an update without criteria throws in the table and answers 500 with no change |
| FiltersRoute.UnknownActionRejected | app/api/filters/route.ts:97-98 | any other action answers 400 |
| FiltersRoute.ToggleSpec | app/api/filters/route.ts:79-95 | toggle flips only the enabled flag of the filter with that id; an unknown id changes nothing |
| FiltersRoute.ToggleTwice | app/api/filters/route.ts:79-95 | toggling twice restores the table |
| FiltersRoute.Post | app/api/filters/route.ts:20-112 | performing POST on the table gives the status and rows `Dispatch` specifies, and on 200 answers the full filter list |
| ClientStorage.Merge | lib/client-storage.ts:43 | each field of the update overrides the filter's field; absent fields are kept |
| ClientStorage.UpdateFirstSpec | lib/client-storage.ts:38-46 | only the first filter with the id is merged with the update |
| ClientStorage.ToggledSpec | lib/client-storage.ts:55-63 | only the first filter with the id has its flag flipped; nothing else changes |
| ClientStorage.ToggledTwice | lib/client-storage.ts:55-63 | toggling twice restores the list |
| ClientStorage.DeleteSpec | lib/client-storage.ts:48-53 | delete keeps, in order, exactly the filters with another id, each with as many copies as the list has |
| ClientStorage.ClientStorage.constructor | lib/client-storage.ts:3-6 | the store starts with the given window and storage state |
| ClientStorage.ClientStorage.GetFilters | lib/client-storage.ts:7-19 | a non-empty answer needs a window and a parsed list, and a parsed list is answered as stored |
| ClientStorage.ClientStorage.SaveFilters | lib/client-storage.ts:21-29 | with a window the list is stored; without one nothing changes |
| ClientStorage.ClientStorage.AddFilter | lib/client-storage.ts:31-36 | the filter is appended to the stored list |
| ClientStorage.ClientStorage.UpdateFilter | lib/client-storage.ts:38-46 | with a match the merged list is saved; without one nothing is saved |
| ClientStorage.ClientStorage.DeleteFilter | lib/client-storage.ts:48-53 | the list without that id is always saved |
| ClientStorage.ClientStorage.ToggleFilter | lib/client-storage.ts:55-63 | with a match the toggled list is saved; without one nothing is saved |
| FilterForm.WithList | components/filter-form.tsx:45-48 | the named list is replaced; the other three and the dates are kept |
| FilterForm.AddKeyword | components/filter-form.tsx:36-50 | a blank value changes nothing; otherwise the trimmed value is appended to that list only, and the input is cleared |
| FilterForm.RemoveAt | components/filter-form.tsx:57 | an index in range is cut out; any other index leaves the list |
| FilterForm.RemoveKeyword | components/filter-form.tsx:52-59 | only the named list loses the element at the index |
| FilterForm.RemoveKeywordSpec | components/filter-form.tsx:52-59 | the list gets one shorter, elements before the index stay, later ones move up one place |
| FilterForm.AddThenRemove | components/filter-form.tsx:36-59 | adding a keyword and removing it at its index restores the criteria |
| FilterForm.HandleSave | components/filter-form.tsx:61-72 | a blank name saves nothing; otherwise the filter has the trimmed name, the criteria, the edited filter's id or a fresh one, and its enabled flag or true |
| FilterForm.SavedNameTrimmed | components/filter-form.tsx:66 | a saved name does not start or end with whitespace |
| FilterForm.SaveUnchangedEdit | components/filter-form.tsx:21-34 | saving an un-edited filter keeps its id, flag and criteria and only trims its name |
| OnboardingModal.CompletionAccepted | components/onboarding-modal.tsx:56-65 | a webhook that got past step 1 is accepted by the onboarding endpoint, which then stores both flags as "true" |
| OnboardingModal.StepsStayInRange | components/onboarding-modal.tsx:31-49 | next and back keep the step within 1..3 |
| OnboardingModal.NextSpec | components/onboarding-modal.tsx:33-42 | next stays put exactly at the last step or at step 1 with a blank webhook, and otherwise advances by one |
| OnboardingModal.BackUndoesNext | components/onboarding-modal.tsx:33-49 | back after a successful next returns to the previous step |
| OnboardingModal.OnboardingWizard.constructor | components/onboarding-modal.tsx:22-29 | the wizard starts at step 1 with no error, an empty webhook and the default feed and schedule |
| OnboardingModal.OnboardingWizard.SetWebhook | components/onboarding-modal.tsx:27 | the webhook input changes and nothing else does |
| OnboardingModal.OnboardingWizard.HandleNext | components/onboarding-modal.tsx:33-42 | the step becomes `NextStep`; the error is set exactly when step 1 has a blank webhook |
| OnboardingModal.OnboardingWizard.HandleBack | components/onboarding-modal.tsx:44-49 | the step becomes `BackStep` and the error is cleared |
| OnboardingModal.OnboardingWizard.HandleComplete | components/onboarding-modal.tsx:51-78 | posts the form with both flags on; an ok answer leaves no error, an answer that is not ok shows "Failed to save settings", and a rejected fetch shows the rejection's message |
| Scheduler.StartSpec | lib/scheduler.ts:16-39 | start while disabled or running changes nothing; from stopped it creates the task and starts exactly one check at once |
| Scheduler.StartIdempotent | lib/scheduler.ts:23-27 | starting twice equals starting once: there is never a second task |
| Scheduler.StopIdempotent | lib/scheduler.ts:41-47 | stop clears the task, starts no check, and stopping twice equals stopping once |
| Scheduler.RunOnceUnguarded | lib/scheduler.ts:49-51 | run-once always starts a check and leaves the task |
| Scheduler.Scheduler.constructor | lib/scheduler.ts:9-14 | the scheduler starts with no task and no check |
| Scheduler.Scheduler.Start | lib/scheduler.ts:16-39 | the new state is `AfterStart` of the old one |
| Scheduler.Scheduler.Stop | lib/scheduler.ts:41-47 | the new state is `AfterStop` of the old one |
| Scheduler.Scheduler.RunOnce | lib/scheduler.ts:49-51 | the new state is `AfterRunOnce` of the old one |
| Types.FilterNames | lib/feed-checker.ts:98 | the filters' names, one per filter, in order |

## Left out

- I/O is not modelled: network fetches, the RSS parser, SQLite, `localStorage`, JSON encoding and logging. Each becomes a parameter (the parsed feed, the webhook answer, the clock, whether a window exists) or the store's state.
- `new Date(...)` parsing is not modelled. A date string is paired with the time it parses to.
- `toLowerCase` is modelled on ASCII letters only. Lengths count characters where JavaScript counts UTF-16 code units.
- The regular expressions in `stripHtml` are modelled by hand: the tag pattern `<[^>]*>` and six literal entity replacements.
- Storage exceptions are not modelled, except where the program itself throws: a missing `criteria` in `filtersDb.update`, a missing `criteria` in the "add" action, and a duplicate id in `filtersDb.create`. Their 500 answers are modelled. So are the webhook throwing and a settings load failing in `getSettings`.
- `processedItemsDb.getAll` reads rows for display only and is not modelled.
- `settingsDb.getAll` is represented by the table itself (`SettingsDb.values`).
- The GET of app/api/filters/route.ts answers `filtersDb.getAll()`, which `Db.FiltersDb.GetAll` models.
- `checkFeedOnce` only calls `checkFeed`.
- The notification log's own table is not part of this model. The log is defined where it is used: records are appended in order, ids come from a counter starting at 1, and the cleanup drops records sent before the 7-day cutoff, as processed-items cleanup does.
- FeedChecker.FeedChecker.CheckFeed: its two loops are factored into `MatchAndMark` and `LogMatches`, and the send and cleanups into `NotifyAndClean`, each proved against its specification function. One clock value stamps every write of a check, where the program reads `unixepoch()` at each statement.
- FeedChecker.Tick: the "fire and forget" check that `start` runs, and any overlap between a scheduled check and a running one, are not modelled. One check runs to completion before the next.
- Scheduler.Scheduler.Start: the cron task is represented by its schedule string, and a started check is counted (`checksStarted`) rather than run. The timer that fires the task is not modelled.
- Rendering, loading flags and the chip and button handlers of the two React components are not modelled. Their state changes are.
- `crypto.randomUUID()` in the filter form is the `freshId` parameter.
- OnboardingModal.OnboardingWizard.HandleComplete: the fetch is not performed. How it ended is the `answer` parameter, and the `onComplete` callback and the loading flag are not modelled.
- Db.FiltersDb.GetAll: `ORDER BY created_at` is modelled as insertion order. Rows created in the same second may come back from SQLite in an unspecified order, and that order decides the order of filter names in embeds and in the log.
- A filter `name` that is undefined is not modelled, in `filtersDb.update` (a toggle of a row always passes one) or in the "add" action's `filter`. The model takes `name` as a string. In the program, the `NOT NULL` constraint on `name` makes `filtersDb.create` throw for an "add" without a name, and the route answers 500. The model answers 200 there.
- DiscordNotifier.TruncatedDescription: the program decides truncation on the length of the raw description but cuts the stripped text. The model follows the program, so "..." can follow a stripped text shorter than 300 characters.
