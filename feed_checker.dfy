/**
 * The feed check of lib/feed-checker.ts: one tick normalises the fetched
 * entries, keeps the items whose guid has not been processed, attributes each
 * new item to the enabled filters that accept it, marks every new item processed,
 * sends one batch notification, logs each matched item only when the send
 * succeeded, and then runs the retention cleanups.
 *
 * The fetch, the webhook response and the clock are parameters. `Tick` states
 * the whole effect of a tick on the stores; `FeedChecker.CheckFeed` performs it
 * step by step on the store objects and is proved to agree with it.
 */
module FeedChecker {
  import opened Wrappers
  import opened Seqs
  import opened Strings
  import opened Types
  import opened FilterEngine
  import opened DiscordNotifier
  import opened Db

  // ---------------------------------------------------------------------------
  // Normalisation
  // ---------------------------------------------------------------------------

  /** An entry as the feed parser yields it; an absent field is "". */
  datatype RawItem = RawItem(
    title: string,
    link: string,
    pubDate: DateText,
    isoDate: DateText,
    contentSnippet: string,
    content: string,
    guid: string)

  /** The fetch outcome: the parsed entries, or a thrown error. */
  datatype FeedFetch = Fetched(entries: seq<RawItem>) | FetchFailed

  /** The `feed.items.map(...)` step; `now` stands for `new Date().toISOString()`. */
  function Normalise(raw: RawItem, now: DateText): (r: FeedItem)
    ensures r.title == raw.title && r.link == raw.link
    ensures r.guid == "" <==> raw.guid == "" && raw.link == ""
    ensures raw.guid != "" ==> r.guid == raw.guid
    ensures raw.guid == "" ==> r.guid == raw.link
    ensures r.pubDate in [raw.pubDate, raw.isoDate, now]
    ensures raw.pubDate.text != "" ==> r.pubDate == raw.pubDate
    ensures raw.pubDate.text == "" && raw.isoDate.text != "" ==> r.pubDate == raw.isoDate
    ensures raw.pubDate.text == "" && raw.isoDate.text == "" ==> r.pubDate == now
    ensures r.pubDate.text == "" ==> now.text == ""
    ensures raw.contentSnippet != "" ==> r.description == raw.contentSnippet
    ensures raw.contentSnippet == "" ==> r.description == raw.content
    ensures raw.content != "" ==> r.content == raw.content
    ensures raw.content == "" ==> r.content == raw.contentSnippet
    ensures (r.description == "") == (r.content == "") == (raw.contentSnippet == "" && raw.content == "")
  {
    FeedItem(
      raw.title,
      raw.link,
      if raw.pubDate.text != "" then raw.pubDate else if raw.isoDate.text != "" then raw.isoDate else now,
      if raw.contentSnippet != "" then raw.contentSnippet else raw.content,
      if raw.content != "" then raw.content else raw.contentSnippet,
      if raw.guid != "" then raw.guid else raw.link)
  }

  function NormaliseAll(entries: seq<RawItem>, now: DateText): (r: seq<FeedItem>)
    ensures |r| == |entries| && forall i :: 0 <= i < |entries| ==> r[i] == Normalise(entries[i], now)
  {
    seq(|entries|, i requires 0 <= i < |entries| => Normalise(entries[i], now))
  }

  // ---------------------------------------------------------------------------
  // New items and attributed matching
  // ---------------------------------------------------------------------------

  /** `item.guid && !processedItemsDb.has(item.guid)`, against the guids seen before the tick. */
  function IsNewIn(seen: set<string>): FeedItem -> bool {
    (item: FeedItem) => item.guid != "" && item.guid !in seen
  }

  function NewItems(items: seq<FeedItem>, seen: set<string>): seq<FeedItem> {
    Select(items, IsNewIn(seen))
  }

  /** New items are exactly the items with a non-empty, unseen guid, in feed order. */
  lemma NewItemsSpec(items: seq<FeedItem>, seen: set<string>, x: FeedItem)
    ensures IsSubsequence(NewItems(items, seen), items)
    ensures x in NewItems(items, seen) <==> x in items && x.guid != "" && x.guid !in seen
    ensures multiset(NewItems(items, seen))[x] ==
      if x.guid != "" && x.guid !in seen then multiset(items)[x] else 0
  {
    SelectIsSubsequence(items, IsNewIn(seen));
    SelectMembership(items, IsNewIn(seen), x);
    SelectMultiplicity(items, IsNewIn(seen), x);
  }

  /** `applyFilters([item], [filter]).length > 0`. */
  function AcceptsItem(item: FeedItem): Filter -> bool {
    (f: Filter) => |ApplyFilters([item], [f])| > 0
  }

  /** The filters an item is attributed to: `enabledFilters.filter(...)`. */
  function MatchedFilters(item: FeedItem, enabled: seq<Filter>): seq<Filter> {
    Select(enabled, AcceptsItem(item))
  }

  /**
   * Over enabled filters, an item is attributed to exactly the filters whose
   * criteria accept it, in filter order.
   */
  lemma MatchedFiltersSpec(item: FeedItem, enabled: seq<Filter>, f: Filter)
    requires forall g | g in enabled :: g.enabled
    ensures IsSubsequence(MatchedFilters(item, enabled), enabled)
    ensures f in MatchedFilters(item, enabled) <==> f in enabled && MatchesCriteria(item, f.criteria)
  {
    SelectIsSubsequence(enabled, AcceptsItem(item));
    SelectMembership(enabled, AcceptsItem(item), f);
    ApplySingle(item, f);
  }

  predicate HasMatch(item: FeedItem, enabled: seq<Filter>) {
    |MatchedFilters(item, enabled)| > 0
  }

  function HasMatchIn(enabled: seq<Filter>): FeedItem -> bool {
    (item: FeedItem) => HasMatch(item, enabled)
  }

  /** The `matches` the first loop pushes, one per item with at least one filter. */
  function MatchesOf(items: seq<FeedItem>, enabled: seq<Filter>): seq<Match>
    decreases |items|
  {
    if items == [] then []
    else
      var last := items[|items| - 1];
      MatchesOf(items[..|items| - 1], enabled) +
        (if HasMatch(last, enabled) then [Match(last, MatchedFilters(last, enabled))] else [])
  }

  function MatchItems(matches: seq<Match>): (r: seq<FeedItem>)
    ensures |r| == |matches| && forall i :: 0 <= i < |matches| ==> r[i] == matches[i].item
  {
    seq(|matches|, i requires 0 <= i < |matches| => matches[i].item)
  }

  lemma MatchItemsConcat(a: seq<Match>, b: seq<Match>)
    ensures MatchItems(a + b) == MatchItems(a) + MatchItems(b)
  {
  }

  /** The matched items are the new items with at least one attributed filter, in feed order. */
  lemma {:induction false} MatchesOfItems(items: seq<FeedItem>, enabled: seq<Filter>)
    ensures MatchItems(MatchesOf(items, enabled)) == Select(items, HasMatchIn(enabled))
    decreases |items|
  {
    if items != [] {
      var prefix := items[..|items| - 1];
      var last := items[|items| - 1];
      var p := HasMatchIn(enabled);
      var tail := if HasMatch(last, enabled) then [Match(last, MatchedFilters(last, enabled))] else [];
      assert items == prefix + [last];
      assert MatchItems(tail) == if p(last) then [last] else [];
      calc {
        MatchItems(MatchesOf(items, enabled));
        MatchItems(MatchesOf(prefix, enabled) + tail);
        { MatchItemsConcat(MatchesOf(prefix, enabled), tail); }
        MatchItems(MatchesOf(prefix, enabled)) + MatchItems(tail);
        { MatchesOfItems(prefix, enabled); }
        Select(prefix, p) + (if p(last) then [last] else []);
        { SelectSnoc(prefix, last, p); }
        Select(items, p);
      }
    }
  }

  /** Each matched item is paired with exactly its attributed filters, of which there is at least one. */
  lemma {:induction false} MatchesOfFilters(items: seq<FeedItem>, enabled: seq<Filter>)
    ensures forall m | m in MatchesOf(items, enabled) ::
      m.filters == MatchedFilters(m.item, enabled) && |m.filters| > 0
    decreases |items|
  {
    if items != [] {
      MatchesOfFilters(items[..|items| - 1], enabled);
    }
  }

  // ---------------------------------------------------------------------------
  // The store updates of a tick
  // ---------------------------------------------------------------------------

  /** The processed rows after the first loop: each item added with `add(guid, title)`. */
  function MarkProcessed(rows: map<string, ProcessedItem>, items: seq<FeedItem>, at: int): map<string, ProcessedItem>
    decreases |items|
  {
    if items == [] then rows
    else
      var last := items[|items| - 1];
      var prev := MarkProcessed(rows, items[..|items| - 1], at);
      if last.guid != "" then InsertOrIgnore(prev, last.guid, last.title, at) else prev
  }

  function Guids(items: seq<FeedItem>): set<string> {
    set x | x in items && x.guid != "" :: x.guid
  }

  /**
   * Every item is marked processed, matched or not; rows already present keep
   * their title and time, and each added one carries the tick's time and the
   * title of the first item with its guid.
   */
  lemma {:induction false} MarkProcessedSpec(rows: map<string, ProcessedItem>, items: seq<FeedItem>, at: int)
    ensures MarkProcessed(rows, items, at).Keys == rows.Keys + Guids(items)
    ensures forall g | g in rows :: MarkProcessed(rows, items, at)[g] == rows[g]
    ensures forall g | g in MarkProcessed(rows, items, at) && g !in rows ::
      MarkProcessed(rows, items, at)[g].processedAt == at
    ensures forall i | 0 <= i < |items| && items[i].guid != "" && items[i].guid !in rows
        && (forall j | 0 <= j < i :: items[j].guid != items[i].guid) ::
      items[i].guid in MarkProcessed(rows, items, at)
      && MarkProcessed(rows, items, at)[items[i].guid].title == items[i].title
    decreases |items|, 1
  {
    if items != [] {
      var prefix := items[..|items| - 1];
      var last := items[|items| - 1];
      MarkProcessedSpec(rows, prefix, at);
      assert items == prefix + [last];
      assert Guids(items) == Guids(prefix) + (if last.guid != "" then {last.guid} else {}) by {
        forall g ensures g in Guids(items) <==> g in Guids(prefix) || (last.guid != "" && g == last.guid) {
          if g in Guids(items) {
            var x :| x in items && x.guid != "" && x.guid == g;
            if x != last {
              assert x in prefix;
            }
          }
        }
      }
    }
    MarkProcessedTitles(rows, items, at);
  }

  /** A newly marked guid carries the title of the first item with that guid. */
  lemma {:induction false} MarkProcessedTitles(rows: map<string, ProcessedItem>, items: seq<FeedItem>, at: int)
    ensures forall i | 0 <= i < |items| && items[i].guid != "" && items[i].guid !in rows
        && (forall j | 0 <= j < i :: items[j].guid != items[i].guid) ::
      items[i].guid in MarkProcessed(rows, items, at)
      && MarkProcessed(rows, items, at)[items[i].guid].title == items[i].title
    decreases |items|, 0
  {
    if items != [] {
      var prefix := items[..|items| - 1];
      MarkProcessedTitles(rows, prefix, at);
      MarkProcessedSpec(rows, prefix, at);
      var prev := MarkProcessed(rows, prefix, at);
      forall i | 0 <= i < |items| && items[i].guid != "" && items[i].guid !in rows
          && (forall j | 0 <= j < i :: items[j].guid != items[i].guid)
        ensures items[i].guid in MarkProcessed(rows, items, at)
        ensures MarkProcessed(rows, items, at)[items[i].guid].title == items[i].title
      {
        if i < |prefix| {
          assert prefix[i] == items[i];
          assert forall j | 0 <= j < i :: prefix[j] == items[j];
        }
      }
    }
  }

  /** The log entry `notificationsDb.add` writes for one match. */
  function RecordFor(id: nat, m: Match, at: int): NotificationRecord {
    NotificationRecord(id, m.item.guid, m.item.title, m.item.link, DescriptionOf(m.item),
      m.item.pubDate.text, FilterNames(m.filters), at)
  }

  /** The records the second loop appends: one per matched item, not per filter. */
  function LogRecords(startId: nat, matches: seq<Match>, at: int): (r: seq<NotificationRecord>)
    ensures |r| == |matches|
    ensures forall i :: 0 <= i < |matches| ==>
      && r[i].id == startId + i
      && r[i].guid == matches[i].item.guid
      && r[i].title == matches[i].item.title
      && r[i].link == matches[i].item.link
      && r[i].description == DescriptionOf(matches[i].item)
      && r[i].pubDate == matches[i].item.pubDate.text
      && r[i].matchedFilters == FilterNames(matches[i].filters)
      && r[i].sentAt == at
  {
    seq(|matches|, i requires 0 <= i < |matches| => RecordFor(startId + i, matches[i], at))
  }

  // ---------------------------------------------------------------------------
  // The tick as a whole
  // ---------------------------------------------------------------------------

  /** The three stores a tick touches: processed rows, and the notification log with its id counter. */
  datatype Stores = Stores(processed: map<string, ProcessedItem>, log: seq<NotificationRecord>, nextId: nat)

  /** How a tick ended. */
  datatype TickOutcome =
    | FetchError
    | NoEnabledFilters
    | NoNewItems
    | Processed(newItems: seq<FeedItem>, matches: seq<Match>, posted: Option<Message>, sent: bool)

  datatype TickResult = TickResult(outcome: TickOutcome, stores: Stores)

  const ProcessedRetentionDays := 30
  const NotificationRetentionDays := 7

  /** The whole effect of `checkFeed()` on the stores. */
  function Tick(feed: FeedFetch, filters: seq<Filter>, webhookUrl: string, response: WebhookResponse,
                nowIso: DateText, nowMs: int, s: Stores): TickResult
  {
    match feed
    case FetchFailed => TickResult(FetchError, s)
    case Fetched(entries) =>
      var items := NormaliseAll(entries, nowIso);
      var enabled := EnabledFilters(filters);
      if |enabled| == 0 then TickResult(NoEnabledFilters, s)
      else
        var newItems := NewItems(items, s.processed.Keys);
        if |newItems| == 0 then TickResult(NoNewItems, s)
        else
          AfterMatching(newItems, MatchesOf(newItems, enabled), webhookUrl, response, nowIso, nowMs,
                        s.(processed := MarkProcessed(s.processed, newItems, nowMs / 1000)))
  }

  /**
   * The rest of a tick once the loop has run and `s.processed` holds the marked
   * rows: the send, the log written on success with its cleanup, and the
   * processed-items cleanup.
   */
  function AfterMatching(newItems: seq<FeedItem>, matches: seq<Match>, webhookUrl: string,
                         response: WebhookResponse, nowIso: DateText, nowMs: int, s: Stores): TickResult
  {
    var delivery :=
      if |matches| > 0 then SendBatchNotification(webhookUrl, matches, response, nowIso.text)
      else Delivery(false, None);
    var sent := |matches| > 0 && delivery.success;
    var log :=
      if sent then SentSince(s.log + LogRecords(s.nextId, matches, nowMs / 1000), CutoffTime(nowMs, NotificationRetentionDays))
      else s.log;
    var nextId := if sent then s.nextId + |matches| else s.nextId;
    TickResult(
      Processed(newItems, matches, delivery.posted, sent),
      Stores(RetainedSince(s.processed, CutoffTime(nowMs, ProcessedRetentionDays)), log, nextId))
  }

  /** A failed fetch is caught: nothing is written. */
  lemma TickFetchFailed(filters: seq<Filter>, webhookUrl: string, response: WebhookResponse,
                        nowIso: DateText, nowMs: int, s: Stores)
    ensures Tick(FetchFailed, filters, webhookUrl, response, nowIso, nowMs, s) == TickResult(FetchError, s)
  {
  }

  /**
   * With no enabled filter the tick returns before marking anything processed,
   * logging anything or running any cleanup.
   */
  lemma TickNoEnabledFilters(entries: seq<RawItem>, filters: seq<Filter>, webhookUrl: string,
                             response: WebhookResponse, nowIso: DateText, nowMs: int, s: Stores)
    requires forall f | f in filters :: !f.enabled
    ensures Tick(Fetched(entries), filters, webhookUrl, response, nowIso, nowMs, s) == TickResult(NoEnabledFilters, s)
  {
    SelectNone(filters, IsEnabled);
  }

  /** With no new item the tick returns with both stores unchanged and no cleanup. */
  lemma TickNoNewItems(entries: seq<RawItem>, filters: seq<Filter>, webhookUrl: string,
                       response: WebhookResponse, nowIso: DateText, nowMs: int, s: Stores)
    requires exists f :: f in filters && f.enabled
    requires forall i :: 0 <= i < |entries| ==>
      Normalise(entries[i], nowIso).guid == "" || Normalise(entries[i], nowIso).guid in s.processed
    ensures Tick(Fetched(entries), filters, webhookUrl, response, nowIso, nowMs, s) == TickResult(NoNewItems, s)
  {
    var f :| f in filters && f.enabled;
    SelectMembership(filters, IsEnabled, f);
    var items := NormaliseAll(entries, nowIso);
    SelectNone(items, IsNewIn(s.processed.Keys));
  }

  /**
   * After a tick that processed items: every new item is in the processed store
   * whatever the match or send result, and the rows that were there before are
   * unchanged unless the 30-day cleanup removed them.
   */
  lemma TickMarksEveryNewItem(feed: FeedFetch, filters: seq<Filter>, webhookUrl: string,
                              response: WebhookResponse, nowIso: DateText, nowMs: int, s: Stores)
    requires Tick(feed, filters, webhookUrl, response, nowIso, nowMs, s).outcome.Processed?
    ensures var r := Tick(feed, filters, webhookUrl, response, nowIso, nowMs, s);
      && (forall x | x in r.outcome.newItems :: x.guid in r.stores.processed)
      && (forall g | g in s.processed ::
            (g in r.stores.processed <==> s.processed[g].processedAt >= CutoffTime(nowMs, ProcessedRetentionDays))
            && (g in r.stores.processed ==> r.stores.processed[g] == s.processed[g]))
  {
    var r := Tick(feed, filters, webhookUrl, response, nowIso, nowMs, s);
    var newItems := r.outcome.newItems;
    var at := nowMs / 1000;
    var marked := MarkProcessed(s.processed, newItems, at);
    MarkProcessedSpec(s.processed, newItems, at);
    CleanupPartition(marked, CutoffTime(nowMs, ProcessedRetentionDays));
    forall x | x in newItems ensures x.guid in r.stores.processed {
      NewItemsSpec(NormaliseAll(feed.entries, nowIso), s.processed.Keys, x);
      assert x.guid in Guids(newItems);
    }
  }

  /**
   * The log changes exactly when at least one item matched and the send
   * succeeded: then one record per matched item is appended (before the 7-day
   * cleanup) and the id counter advances by that many; otherwise the log and the
   * counter are as they were.
   */
  lemma TickLogsOnlyOnSuccess(feed: FeedFetch, filters: seq<Filter>, webhookUrl: string,
                              response: WebhookResponse, nowIso: DateText, nowMs: int, s: Stores)
    requires Tick(feed, filters, webhookUrl, response, nowIso, nowMs, s).outcome.Processed?
    ensures var r := Tick(feed, filters, webhookUrl, response, nowIso, nowMs, s);
      && (r.outcome.sent <==> |r.outcome.matches| > 0 && webhookUrl != "" && response == Answered(true))
      && (r.outcome.sent ==>
            && r.stores.log == SentSince(s.log + LogRecords(s.nextId, r.outcome.matches, nowMs / 1000),
                                         CutoffTime(nowMs, NotificationRetentionDays))
            && r.stores.nextId == s.nextId + |r.outcome.matches|)
      && (!r.outcome.sent ==> r.stores.log == s.log && r.stores.nextId == s.nextId)
  {
  }

  /** After a tick that processed items, the processed rows are the marked rows after the 30-day cleanup. */
  lemma TickProcessedRows(entries: seq<RawItem>, filters: seq<Filter>, webhookUrl: string,
                          response: WebhookResponse, nowIso: DateText, nowMs: int, s: Stores)
    requires Tick(Fetched(entries), filters, webhookUrl, response, nowIso, nowMs, s).outcome.Processed?
    ensures Tick(Fetched(entries), filters, webhookUrl, response, nowIso, nowMs, s).stores.processed
      == RetainedSince(MarkProcessed(s.processed, NewItems(NormaliseAll(entries, nowIso), s.processed.Keys), nowMs / 1000),
                       CutoffTime(nowMs, ProcessedRetentionDays))
  {
  }

  /**
   * A guid that was stored before, or was just marked, and is gone after the
   * cleanup must have been stored before the cutoff: rows marked now are never
   * removed by the same cleanup.
   */
  lemma RemovedRowWasOld(rows: map<string, ProcessedItem>, newItems: seq<FeedItem>, at: int, cutoff: int, x: FeedItem)
    requires cutoff <= at
    requires x.guid in rows || (x in newItems && x.guid != "")
    requires x.guid !in RetainedSince(MarkProcessed(rows, newItems, at), cutoff)
    ensures x.guid in rows && rows[x.guid].processedAt < cutoff
  {
    var marked := MarkProcessed(rows, newItems, at);
    MarkProcessedSpec(rows, newItems, at);
    CleanupPartition(marked, cutoff);
  }

  /**
   * A second tick right after a tick that processed items sees as new only items
   * whose guid was stored before the first tick and then expired in its cleanup:
   * no item is evaluated twice while its row is retained.
   */
  lemma TickDedup(entries: seq<RawItem>, filters: seq<Filter>, webhookUrl: string,
                  response: WebhookResponse, nowIso: DateText, nowMs: int, s: Stores, x: FeedItem)
    requires Tick(Fetched(entries), filters, webhookUrl, response, nowIso, nowMs, s).outcome.Processed?
    requires x in NewItems(NormaliseAll(entries, nowIso),
                           Tick(Fetched(entries), filters, webhookUrl, response, nowIso, nowMs, s).stores.processed.Keys)
    ensures x.guid in s.processed && s.processed[x.guid].processedAt < CutoffTime(nowMs, ProcessedRetentionDays)
  {
    var items := NormaliseAll(entries, nowIso);
    var newItems := NewItems(items, s.processed.Keys);
    var after := Tick(Fetched(entries), filters, webhookUrl, response, nowIso, nowMs, s).stores.processed;
    TickProcessedRows(entries, filters, webhookUrl, response, nowIso, nowMs, s);
    NewItemsSpec(items, after.Keys, x);
    NewItemsSpec(items, s.processed.Keys, x);
    RemovedRowWasOld(s.processed, newItems, nowMs / 1000, CutoffTime(nowMs, ProcessedRetentionDays), x);
  }

  const SampleTitle := "Movie 1080p WEB"

  lemma SampleTitleLower()
    ensures Lower(SampleTitle) == "movie 1080p web"
  {
    var t := Lower(SampleTitle);
    forall i | 0 <= i < 15 ensures t[i] == "movie 1080p web"[i] {
      assert t[i] == LowerChar(SampleTitle[i]);
    }
  }

  lemma SampleTitleHas1080p()
    ensures HasKeyword(SampleTitle, "1080p")
  {
    SampleTitleLower();
    assert Lower("1080p") == "1080p" by {
      forall i | 0 <= i < 5 ensures Lower("1080p")[i] == "1080p"[i] {
      }
    }
    assert OccursAt("movie 1080p web", "1080p", 6) by {
      assert "movie 1080p web"[6..11] == "1080p";
    }
  }

  lemma SampleTitleLacksBluRay()
    ensures !HasKeyword(SampleTitle, "BluRay")
  {
    SampleTitleLower();
    assert Lower("BluRay") == "bluray" by {
      forall i | 0 <= i < 6 ensures Lower("BluRay")[i] == "bluray"[i] {
      }
    }
    var t := "movie 1080p web";
    forall i | 0 <= i <= |t| - 6 ensures !OccursAt(t, "bluray", i) {
      assert t[i..i + 6][0] == t[i];
    }
  }

  /**
   * The display path and the notification path disagree: with filters for
   * "1080p" and "BluRay", "Movie 1080p WEB" fails `applyFilters` (it needs both)
   * but is attributed to the "1080p" filter.
   */
  lemma ConjunctiveVersusAttributed(item: FeedItem, f1: Filter, f2: Filter)
    requires item.title == SampleTitle
    requires f1 == Filter("1", "HD", true, EmptyCriteria.(titleIncludes := ["1080p"]))
    requires f2 == Filter("2", "BluRay", true, EmptyCriteria.(titleIncludes := ["BluRay"]))
    ensures ApplyFilters([item], [f1, f2]) == []
    ensures MatchedFilters(item, [f1, f2]) == [f1]
  {
    SampleTitleHas1080p();
    SampleTitleLacksBluRay();
    assert MatchesCriteria(item, f1.criteria);
    assert f2.criteria.titleIncludes[0] == "BluRay";
    assert !MatchesCriteria(item, f2.criteria);
    assert [f1, f2][1..] == [f2] && [f2][1..] == [];
    assert Select([f2], IsEnabled) == [f2];
    assert EnabledFilters([f1, f2]) == [f1, f2];
    assert !MatchesAll(item, [f1, f2]);
    assert [item][1..] == [];
    ApplySingle(item, f1);
    ApplySingle(item, f2);
    assert AcceptsItem(item)(f1) && !AcceptsItem(item)(f2);
    assert Select([f2], AcceptsItem(item)) == [];
  }

  // ---------------------------------------------------------------------------
  // The imperative tick
  // ---------------------------------------------------------------------------

  /** `FeedChecker`: holds the notifier's webhook URL, fixed when it is built. */
  class FeedChecker {
    const webhookUrl: string

    /** `new FeedChecker()` builds `new DiscordNotifier()` with no explicit URL. */
    constructor(configuredWebhook: string)
      ensures webhookUrl == NotifierWebhook("", configuredWebhook)
    {
      webhookUrl := NotifierWebhook("", configuredWebhook);
    }

    /** `checkFeed()`, performed on the stores, agreeing with `Tick`. */
    method CheckFeed(feed: FeedFetch, filtersDb: FiltersDb, processed: ProcessedItemsDb, log: NotificationsDb,
                     response: WebhookResponse, nowIso: DateText, nowMs: int)
      returns (outcome: TickOutcome)
      modifies processed, log
      ensures TickResult(outcome, Stores(processed.rows, log.records, log.nextId))
        == Tick(feed, filtersDb.GetAll(), webhookUrl, response, nowIso, nowMs,
                Stores(old(processed.rows), old(log.records), old(log.nextId)))
    {
      if feed.FetchFailed? {
        return FetchError;
      }
      var items := NormaliseAll(feed.entries, nowIso);
      var filters := filtersDb.GetAll();
      var enabled := EnabledFilters(filters);
      if |enabled| == 0 {
        return NoEnabledFilters;
      }
      var newItems := NewItems(items, processed.rows.Keys);
      if |newItems| == 0 {
        return NoNewItems;
      }

      var matches := MatchAndMark(newItems, enabled, processed, nowMs);
      outcome := NotifyAndClean(newItems, matches, webhookUrl, processed, log, response, nowIso, nowMs);
    }
  }

  /**
   * The first loop of `checkFeed()`: collects the matches and marks every new
   * item processed, matched or not.
   */
  method MatchAndMark(newItems: seq<FeedItem>, enabled: seq<Filter>, processed: ProcessedItemsDb, nowMs: int)
    returns (matches: seq<Match>)
    modifies processed
    ensures matches == MatchesOf(newItems, enabled)
    ensures processed.rows == MarkProcessed(old(processed.rows), newItems, nowMs / 1000)
  {
    matches := [];
    var i := 0;
    while i < |newItems|
      invariant 0 <= i <= |newItems|
      invariant matches == MatchesOf(newItems[..i], enabled)
      invariant processed.rows == MarkProcessed(old(processed.rows), newItems[..i], nowMs / 1000)
    {
      var item := newItems[i];
      assert newItems[..i + 1][..i] == newItems[..i];
      var matchedFilters := MatchedFilters(item, enabled);
      if |matchedFilters| > 0 {
        matches := matches + [Match(item, matchedFilters)];
      }
      if item.guid != "" {
        processed.Add(item.guid, item.title, nowMs);
      }
      i := i + 1;
    }
    assert newItems[..i] == newItems;
  }

  /** The second loop of `checkFeed()`: one log record per matched item. */
  method LogMatches(matches: seq<Match>, log: NotificationsDb, nowMs: int)
    modifies log
    ensures log.records == old(log.records) + LogRecords(old(log.nextId), matches, nowMs / 1000)
    ensures log.nextId == old(log.nextId) + |matches|
  {
    var j := 0;
    while j < |matches|
      invariant 0 <= j <= |matches|
      invariant log.records == old(log.records) + LogRecords(old(log.nextId), matches[..j], nowMs / 1000)
      invariant log.nextId == old(log.nextId) + j
    {
      var m := matches[j];
      log.Add(m.item.guid, m.item.title, m.item.link, DescriptionOf(m.item), m.item.pubDate.text,
              FilterNames(m.filters), nowMs);
      assert LogRecords(old(log.nextId), matches[..j + 1], nowMs / 1000)
        == LogRecords(old(log.nextId), matches[..j], nowMs / 1000) + [RecordFor(old(log.nextId) + j, m, nowMs / 1000)];
      j := j + 1;
    }
    assert matches[..j] == matches;
  }

  /** The send, the log on success with its cleanup, and the processed-items cleanup. */
  method NotifyAndClean(newItems: seq<FeedItem>, matches: seq<Match>, webhookUrl: string,
                        processed: ProcessedItemsDb, log: NotificationsDb,
                        response: WebhookResponse, nowIso: DateText, nowMs: int)
    returns (outcome: TickOutcome)
    modifies processed, log
    ensures TickResult(outcome, Stores(processed.rows, log.records, log.nextId))
      == AfterMatching(newItems, matches, webhookUrl, response, nowIso, nowMs,
                       Stores(old(processed.rows), old(log.records), old(log.nextId)))
  {
    var posted: Option<Message> := None;
    var sent := false;
    if |matches| > 0 {
      var delivery := SendBatchNotification(webhookUrl, matches, response, nowIso.text);
      posted := delivery.posted;
      if delivery.success {
        LogMatches(matches, log, nowMs);
        var deleted := log.Cleanup(NotificationRetentionDays, nowMs);
        sent := true;
      }
    }
    var deleted := processed.Cleanup(ProcessedRetentionDays, nowMs);
    outcome := Processed(newItems, matches, posted, sent);
  }
}
