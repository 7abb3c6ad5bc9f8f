/**
 * The filter predicate engine of lib/filter.ts: the per-filter predicate
 * `matchesCriteria` and the conjunctive `applyFilters` that keeps an item only
 * when every enabled filter accepts it.
 */
module FilterEngine {
  import opened Wrappers
  import opened Strings
  import opened Seqs
  import opened Types

  /** Case-insensitive substring test: `text.toLowerCase().includes(keyword.toLowerCase())`. */
  predicate HasKeyword(text: string, keyword: string) {
    Contains(Lower(text), Lower(keyword))
  }

  /** `keywords.every(...)`: every keyword occurs in `text`. */
  predicate HasAll(text: string, keywords: seq<string>) {
    forall k :: 0 <= k < |keywords| ==> HasKeyword(text, keywords[k])
  }

  /** `keywords.some(...)`: some keyword occurs in `text`. */
  predicate HasAny(text: string, keywords: seq<string>) {
    exists k :: 0 <= k < |keywords| && HasKeyword(text, keywords[k])
  }

  /** The text the description checks look at: `item.description || item.content || ""`. */
  function DescriptionOf(item: FeedItem): (r: string)
    ensures item.description != "" ==> r == item.description
    ensures item.description == "" ==> r == item.content
  {
    if item.description != "" then item.description else item.content
  }

  /**
   * `a < b` on two Dates: false as soon as either is an Invalid Date, since
   * every comparison with NaN is false.
   */
  predicate IsBefore(a: DateText, b: DateText) {
    a.time.Some? && b.time.Some? && a.time.value < b.time.value
  }

  /** The date check passes: neither bound is set and violated. */
  predicate WithinDateBounds(item: FeedItem, c: FilterCriteria) {
    && (c.minDate.text != "" ==> !IsBefore(item.pubDate, c.minDate))
    && (c.maxDate.text != "" ==> !IsBefore(c.maxDate, item.pubDate))
  }

  /**
   * `matchesCriteria(item, criteria)`: the checks in the source's order, each
   * one rejecting as soon as it fails.
   */
  function MatchesCriteria(item: FeedItem, c: FilterCriteria): (r: bool)
    ensures r <==>
      && HasAll(item.title, c.titleIncludes)
      && !HasAny(item.title, c.titleExcludes)
      && HasAll(DescriptionOf(item), c.descriptionIncludes)
      && !HasAny(DescriptionOf(item), c.descriptionExcludes)
      && WithinDateBounds(item, c)
  {
    if |c.titleIncludes| > 0 && !HasAll(item.title, c.titleIncludes) then false
    else if |c.titleExcludes| > 0 && HasAny(item.title, c.titleExcludes) then false
    else if |c.descriptionIncludes| > 0 && !HasAll(DescriptionOf(item), c.descriptionIncludes) then false
    else if |c.descriptionExcludes| > 0 && HasAny(DescriptionOf(item), c.descriptionExcludes) then false
    else if c.minDate.text != "" && IsBefore(item.pubDate, c.minDate) then false
    else if c.maxDate.text != "" && IsBefore(c.maxDate, item.pubDate) then false
    else true
  }

  /** Keyword matching ignores the case of both the text and the keyword. */
  lemma KeywordCaseInsensitive(text: string, keyword: string)
    ensures HasKeyword(Lower(text), keyword) == HasKeyword(text, keyword)
    ensures HasKeyword(text, Lower(keyword)) == HasKeyword(text, keyword)
  {
    LowerIdempotent(text);
    LowerIdempotent(keyword);
  }

  /** An exclude keyword found in the title rejects the item, whatever the includes say. */
  lemma TitleExcludeWins(item: FeedItem, c: FilterCriteria, k: nat)
    requires k < |c.titleExcludes| && HasKeyword(item.title, c.titleExcludes[k])
    ensures !MatchesCriteria(item, c)
  {
  }

  /** An empty exclude keyword occurs in every title, so it rejects every item. */
  lemma EmptyTitleExcludeRejectsAll(item: FeedItem, c: FilterCriteria)
    requires "" in c.titleExcludes
    ensures !MatchesCriteria(item, c)
  {
    var k :| 0 <= k < |c.titleExcludes| && c.titleExcludes[k] == "";
    ContainsEmpty(Lower(item.title));
    assert HasKeyword(item.title, c.titleExcludes[k]);
  }

  /** Description checks fall back to the content when the description is empty. */
  lemma DescriptionFallback(item: FeedItem, c: FilterCriteria)
    requires item.description == ""
    requires c.titleIncludes == [] && c.titleExcludes == [] && c.minDate == NoDate && c.maxDate == NoDate
    ensures MatchesCriteria(item, c) <==>
      HasAll(item.content, c.descriptionIncludes) && !HasAny(item.content, c.descriptionExcludes)
  {
  }

  /** Date bounds are inclusive: an item dated exactly at a bound passes the date check. */
  lemma DateBoundsInclusive(item: FeedItem, c: FilterCriteria)
    requires item.pubDate.time.Some?
    requires c.minDate.time == item.pubDate.time || c.minDate.text == ""
    requires c.maxDate.time == item.pubDate.time || c.maxDate.text == ""
    ensures WithinDateBounds(item, c)
  {
  }

  /**
   * An Invalid Date never rejects: an item whose date does not parse passes both
   * bounds, and a bound that does not parse is never violated.
   */
  lemma InvalidDateNeverRejects(item: FeedItem, c: FilterCriteria)
    ensures item.pubDate.time.None? ==> WithinDateBounds(item, c)
    ensures c.minDate.time.None? ==> !IsBefore(item.pubDate, c.minDate)
    ensures c.maxDate.time.None? ==> !IsBefore(c.maxDate, item.pubDate)
    ensures c.minDate.time.None? && c.maxDate.time.None? ==> WithinDateBounds(item, c)
  {
  }

  /** Criteria with no keyword and no date bound match every item. */
  lemma EmptyCriteriaMatchAll(item: FeedItem)
    ensures MatchesCriteria(item, EmptyCriteria)
  {
  }

  // ---------------------------------------------------------------------------
  // applyFilters
  // ---------------------------------------------------------------------------

  predicate IsEnabled(f: Filter) {
    f.enabled
  }

  /** `filters.filter((f) => f.enabled)`. */
  function EnabledFilters(filters: seq<Filter>): seq<Filter> {
    Select(filters, IsEnabled)
  }

  /** The item satisfies the criteria of every filter in `filters`. */
  predicate MatchesAll(item: FeedItem, filters: seq<Filter>) {
    forall f | f in filters :: MatchesCriteria(item, f.criteria)
  }

  /** `applyFilters(items, filters)`. */
  function ApplyFilters(items: seq<FeedItem>, filters: seq<Filter>): seq<FeedItem> {
    var enabled := EnabledFilters(filters);
    if |enabled| == 0 then items
    else Select(items, (item: FeedItem) => MatchesAll(item, enabled))
  }

  /** With no enabled filter every item passes, unchanged and in order. */
  lemma ApplyNoEnabledFilters(items: seq<FeedItem>, filters: seq<Filter>)
    requires forall f | f in filters :: !f.enabled
    ensures ApplyFilters(items, filters) == items
  {
    SelectNone(filters, IsEnabled);
  }

  /** Disabled filters never affect the result. */
  lemma ApplyIgnoresDisabled(items: seq<FeedItem>, filters: seq<Filter>)
    ensures ApplyFilters(items, filters) == ApplyFilters(items, EnabledFilters(filters))
  {
    SelectIdempotent(filters, IsEnabled);
  }

  /**
   * The result is an order-preserving subsequence of the input holding exactly
   * the items every enabled filter accepts.
   */
  lemma ApplyFiltersSpec(items: seq<FeedItem>, filters: seq<Filter>, x: FeedItem)
    ensures IsSubsequence(ApplyFilters(items, filters), items)
    ensures x in ApplyFilters(items, filters) <==>
      x in items && forall f | f in filters && f.enabled :: MatchesCriteria(x, f.criteria)
    ensures multiset(ApplyFilters(items, filters))[x] ==
      if forall f | f in filters && f.enabled :: MatchesCriteria(x, f.criteria) then multiset(items)[x] else 0
  {
    var enabled := EnabledFilters(filters);
    var p := (item: FeedItem) => MatchesAll(item, enabled);
    forall f ensures f in enabled <==> f in filters && f.enabled {
      SelectMembership(filters, IsEnabled, f);
    }
    if |enabled| == 0 {
      SeqIsSubsequenceOfItself(items);
    } else {
      SelectIsSubsequence(items, p);
      SelectMembership(items, p, x);
      SelectMultiplicity(items, p, x);
    }
  }

  lemma {:induction false} SeqIsSubsequenceOfItself(s: seq<FeedItem>)
    ensures IsSubsequence(s, s)
  {
    if s != [] {
      SeqIsSubsequenceOfItself(s[1..]);
    }
  }

  /** Filtering an already filtered list changes nothing. */
  lemma ApplyFiltersIdempotent(items: seq<FeedItem>, filters: seq<Filter>)
    ensures ApplyFilters(ApplyFilters(items, filters), filters) == ApplyFilters(items, filters)
  {
    var enabled := EnabledFilters(filters);
    if |enabled| > 0 {
      SelectIdempotent(items, (item: FeedItem) => MatchesAll(item, enabled));
    }
  }

  /**
   * `applyFilters([item], [f])` is non-empty exactly when `f` is disabled or
   * accepts the item: the test the feed check uses to attribute matches.
   */
  lemma ApplySingle(item: FeedItem, f: Filter)
    ensures |ApplyFilters([item], [f])| > 0 <==> !f.enabled || MatchesCriteria(item, f.criteria)
  {
    var enabled := EnabledFilters([f]);
    assert [f][1..] == [];
    if f.enabled {
      assert enabled == [f];
      var p := (x: FeedItem) => MatchesAll(x, enabled);
      assert [item][1..] == [];
      assert Select([item], p) == (if p(item) then [item] else []);
    } else {
      assert enabled == [];
    }
  }
}
