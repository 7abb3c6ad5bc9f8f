/**
 * The Discord notifier of lib/discord-notifier.ts: HTML stripping, the embed
 * built for one matched item, the batch message (at most ten embeds and a
 * summary line) and the two send operations. The HTTP request is not performed:
 * its outcome is a parameter, and the result says which message was posted.
 */
module DiscordNotifier {
  import opened Wrappers
  import opened Strings
  import opened Types
  import FilterEngine

  // ---------------------------------------------------------------------------
  // stripHtml
  // ---------------------------------------------------------------------------

  function FirstIndexOf(s: string, c: char): (k: nat)
    requires c in s
    ensures k < |s| && s[k] == c
    ensures forall j :: 0 <= j < k ==> s[j] != c
  {
    if s[0] == c then 0 else 1 + FirstIndexOf(s[1..], c)
  }

  /** Every character of a suffix occurs in the whole string. */
  lemma SuffixChars(s: string, k: nat)
    requires k <= |s|
    ensures forall c :: c in s[k..] ==> c in s
  {
    forall c | c in s[k..] ensures c in s {
      var i :| 0 <= i < |s[k..]| && s[k..][i] == c;
      assert s[k + i] == c;
    }
  }

  /**
   * `s.replace(/<[^>]*>/g, "")`: scanning left to right, a `<` that has a `>`
   * somewhere after it starts a tag, which ends at the first such `>`; a `<`
   * with no `>` after it stays.
   */
  function StripTags(s: string): (r: string)
    ensures |r| <= |s|
    ensures forall c :: c in r ==> c in s
    decreases |s|
  {
    if s == [] then []
    else if s[0] == '<' && '>' in s[1..] then
      var rest := s[1..][FirstIndexOf(s[1..], '>') + 1..];
      SuffixChars(s, FirstIndexOf(s[1..], '>') + 2);
      assert rest == s[FirstIndexOf(s[1..], '>') + 2..];
      StripTags(rest)
    else
      [s[0]] + StripTags(s[1..])
  }

  /** No `<` in `r` is followed, anywhere later, by a `>`. */
  predicate TagFree(r: string) {
    forall i, j :: 0 <= i < j < |r| && r[i] == '<' ==> r[j] != '>'
  }

  /** A character put in front of a tag-free text keeps it tag-free unless it opens a tag the text closes. */
  lemma ConsTagFree(c: char, t: string)
    requires TagFree(t)
    requires c == '<' ==> '>' !in t
    ensures TagFree([c] + t)
  {
    var r := [c] + t;
    forall i, j | 0 <= i < j < |r| && r[i] == '<' ensures r[j] != '>' {
      assert r[j] == t[j - 1];
      if i > 0 {
        assert r[i] == t[i - 1];
      }
    }
  }

  /** After tag removal no tag is left. */
  lemma {:induction false} NoTagRemains(s: string)
    ensures TagFree(StripTags(s))
    decreases |s|
  {
    if s == [] {
    } else if s[0] == '<' && '>' in s[1..] {
      var rest := s[1..][FirstIndexOf(s[1..], '>') + 1..];
      assert StripTags(s) == StripTags(rest);
      NoTagRemains(rest);
    } else {
      NoTagRemains(s[1..]);
      assert StripTags(s) == [s[0]] + StripTags(s[1..]);
      ConsTagFree(s[0], StripTags(s[1..]));
    }
  }

  /** `s.replace(/pat/g, rep)` for a literal, non-empty `pat`. */
  function ReplaceAll(s: string, pat: string, rep: string): (r: string)
    requires pat != ""
    ensures |rep| <= |pat| ==> |r| <= |s|
    decreases |s|
  {
    if |s| < |pat| then s
    else if s[..|pat|] == pat then rep + ReplaceAll(s[|pat|..], pat, rep)
    else [s[0]] + ReplaceAll(s[1..], pat, rep)
  }

  lemma TrimNotLonger(s: string)
    ensures |Trim(s)| <= |s|
  {
    TrimEdges(s);
  }

  /** `stripHtml`: tags removed, six entities decoded in the source's order, then trimmed. */
  function StripHtml(html: string): (r: string)
    ensures |r| <= |html|
  {
    var noTags := StripTags(html);
    var decoded :=
      ReplaceAll(ReplaceAll(ReplaceAll(ReplaceAll(ReplaceAll(ReplaceAll(
        noTags, "&nbsp;", " "), "&amp;", "&"), "&lt;", "<"), "&gt;", ">"), "&quot;", "\""), "&#39;", "'");
    TrimNotLonger(decoded);
    Trim(decoded)
  }

  // ---------------------------------------------------------------------------
  // Embeds and messages
  // ---------------------------------------------------------------------------

  datatype EmbedField = EmbedField(name: string, value: string, inline: bool)

  datatype Embed = Embed(
    title: string,
    url: string,
    color: int,
    description: string,
    fields: seq<EmbedField>,
    timestamp: string)

  /** A webhook message: optional summary `content` and the embeds. */
  datatype Message = Message(content: Option<string>, embeds: seq<Embed>)

  /** One matched item with the filters that matched it. */
  datatype Match = Match(item: FeedItem, filters: seq<Filter>)

  /** Discord's "blurple". */
  const EmbedColor := 0x5865f2
  const MaxEmbeds := 10
  const DescriptionLimit := 300
  const MatchedFiltersField := "Matched Filters"

  /**
   * The embed description: the stripped text, cut to 300 characters with "..."
   * appended when the raw text is longer than 300.
   */
  function TruncatedDescription(raw: string): (r: string)
    ensures |r| <= DescriptionLimit + 3
    ensures |raw| <= DescriptionLimit ==> r == StripHtml(raw)
    ensures |raw| > DescriptionLimit ==>
      |r| >= 3 && r[|r| - 3..] == "..." && r[..|r| - 3] <= StripHtml(raw)
    ensures |raw| > DescriptionLimit ==>
      var text := StripHtml(raw);
      r == text[..if |text| <= DescriptionLimit then |text| else DescriptionLimit] + "..."
  {
    if |raw| > DescriptionLimit then Take(StripHtml(raw), DescriptionLimit) + "..."
    else StripHtml(raw)
  }

  /** `createEmbed(item, matchedFilters)`; `now` stands for `new Date().toISOString()`. */
  function CreateEmbed(item: FeedItem, matchedFilters: seq<Filter>, now: string): (e: Embed)
    ensures e.title == item.title && e.url == item.link && e.color == EmbedColor
    ensures e.description == TruncatedDescription(FilterEngine.DescriptionOf(item))
    ensures |e.description| <= DescriptionLimit + 3
    ensures |e.fields| == 1 && e.fields[0].name == MatchedFiltersField && !e.fields[0].inline
    ensures e.fields[0].value == Join(FilterNames(matchedFilters), ", ")
    ensures forall f | f in matchedFilters :: Contains(e.fields[0].value, f.name)
    ensures e.timestamp == if item.pubDate.text != "" then item.pubDate.text else now
  {
    var raw := FilterEngine.DescriptionOf(item);
    var names := FilterNames(matchedFilters);
    var value := Join(names, ", ");
    assert forall f | f in matchedFilters :: Contains(value, f.name) by {
      forall f | f in matchedFilters ensures Contains(value, f.name) {
        var k :| 0 <= k < |matchedFilters| && matchedFilters[k] == f;
        JoinContainsEach(names, ", ", k);
      }
    }
    Embed(
      item.title,
      item.link,
      EmbedColor,
      TruncatedDescription(raw),
      [EmbedField(MatchedFiltersField, value, false)],
      if item.pubDate.text != "" then item.pubDate.text else now)
  }

  /** `createMessage(item, matchedFilters)`: a message of exactly one embed and no content. */
  function CreateMessage(item: FeedItem, matchedFilters: seq<Filter>, now: string): (m: Message)
    ensures m.content.None? && |m.embeds| == 1
    ensures m.embeds[0] == CreateEmbed(item, matchedFilters, now)
  {
    Message(None, [CreateEmbed(item, matchedFilters, now)])
  }

  /**
   * The summary line of a batch of `n` matches: the count after "**", then the
   * rest of the source's two template literals (`BatchTail`).
   */
  function BatchContent(n: nat): string {
    "**" + NatToString(n) + BatchTail(n)
  }

  /**
   * Both template literals in one: over ten matches the plural is always taken
   * and the note follows the closing "**".
   */
  function BatchTail(n: nat): string {
    " new item" + (if n > 1 then "s" else "") + " matched your filters**" + (if n > MaxEmbeds then ShowingNote else "")
  }

  predicate EndsWith(s: string, suffix: string) {
    |suffix| <= |s| && s[|s| - |suffix|..] == suffix
  }

  const ShowingNote := " (showing first 10)"

  lemma BatchTailStartsWithSpace(n: nat)
    ensures BatchTail(n) != [] && BatchTail(n)[0] == ' '
  {
    var rest := (if n > 1 then "s" else "") + " matched your filters**" + (if n > MaxEmbeds then ShowingNote else "");
    assert BatchTail(n) == " new item" + rest;
  }

  /** The summary line states the number of matches, in decimal, right after the leading "**". */
  lemma BatchContentCount(n: nat)
    ensures var c := BatchContent(n);
      && c[..2] == "**"
      && AllDigits(LeadingDigits(c[2..]))
      && ParseDecimal(LeadingDigits(c[2..])) == n
  {
    var d := NatToString(n);
    var tail := BatchTail(n);
    DecimalRoundTrip(n);
    BatchTailStartsWithSpace(n);
    BoldPrefix(d, tail);
    LeadingDigitsOf(d, tail);
  }

  /** `"**" + d + tail` splits back into the leading "**" and the rest. */
  lemma BoldPrefix(d: string, tail: string)
    ensures ("**" + d + tail)[..2] == "**"
    ensures ("**" + d + tail)[2..] == d + tail
  {
    assert "**" + d + tail == "**" + (d + tail);
  }

  /** The noun after the count is "items" exactly when there is more than one match. */
  lemma BatchContentPlural(n: nat)
    ensures var c := BatchContent(n);
      var k := 2 + |NatToString(n)| + 9;
      k < |c| && (c[k] == 's' <==> n > 1)
  {
    var d := NatToString(n);
    var tail := BatchTail(n);
    var plural := if n > 1 then "s" else "";
    var rest := " matched your filters**" + (if n > MaxEmbeds then ShowingNote else "");
    assert tail == " new item" + (plural + rest);
    assert tail[9] == (plural + rest)[0];
    assert BatchContent(n) == ("**" + d) + tail;
    assert BatchContent(n)[2 + |d| + 9] == tail[9];
  }

  /** The "(showing first 10)" note closes the line exactly when there are more than ten matches. */
  lemma BatchContentNote(n: nat)
    ensures EndsWith(BatchContent(n), ShowingNote) <==> n > MaxEmbeds
  {
    var d := NatToString(n);
    var tail := BatchTail(n);
    var c := BatchContent(n);
    assert c == ("**" + d) + tail;
    if n > MaxEmbeds {
      assert tail[|tail| - |ShowingNote|..] == ShowingNote;
      assert c[|c| - |ShowingNote|..] == tail[|tail| - |ShowingNote|..];
    } else {
      assert tail[|tail| - 1] == '*';
      assert c[|c| - 1] == tail[|tail| - 1];
    }
  }

  /**
   * The batch message: the summary line, and one embed for each of the first
   * ten matches, in input order.
   */
  function BuildBatchMessage(matches: seq<Match>, now: string): (m: Message)
    ensures m.content == Some(BatchContent(|matches|))
    ensures |m.embeds| == if |matches| < MaxEmbeds then |matches| else MaxEmbeds
    ensures forall i :: 0 <= i < |m.embeds| ==>
      m.embeds[i] == CreateEmbed(matches[i].item, matches[i].filters, now)
  {
    var shown := if |matches| < MaxEmbeds then matches else matches[..MaxEmbeds];
    Message(
      Some(BatchContent(|matches|)),
      seq(|shown|, i requires 0 <= i < |shown| => CreateEmbed(shown[i].item, shown[i].filters, now)))
  }

  /** Fifteen matches are posted as ten embeds under a line that counts fifteen and notes the cap. */
  lemma FifteenMatches(matches: seq<Match>, now: string)
    requires |matches| == 15
    ensures var m := BuildBatchMessage(matches, now);
      && |m.embeds| == 10
      && ParseDecimal(LeadingDigits(m.content.value[2..])) == 15
      && EndsWith(m.content.value, ShowingNote)
  {
    BatchContentCount(15);
    BatchContentNote(15);
  }

  // ---------------------------------------------------------------------------
  // Sending
  // ---------------------------------------------------------------------------

  /** What the webhook POST came back with: a response (with `response.ok`), or a thrown error. */
  datatype WebhookResponse = Answered(ok: bool) | Threw

  /** The outcome of a send: the returned flag, and the message posted, if any. */
  datatype Delivery = Delivery(success: bool, posted: Option<Message>)

  /** The URL a notifier posts to: `webhookUrl || appConfig.discordWebhookUrl`. */
  function NotifierWebhook(explicit: string, configured: string): (url: string)
    ensures explicit != "" ==> url == explicit
    ensures explicit == "" ==> url == configured
  {
    if explicit != "" then explicit else configured
  }

  /**
   * `sendBatchNotification(matches)`: no webhook means failure without sending,
   * checked before the empty batch, which succeeds without sending; otherwise the
   * batch message is posted and only an OK response counts as success.
   */
  function SendBatchNotification(webhookUrl: string, matches: seq<Match>, response: WebhookResponse, now: string): (d: Delivery)
    ensures webhookUrl == "" ==> d == Delivery(false, None)
    ensures webhookUrl != "" && |matches| == 0 ==> d == Delivery(true, None)
    ensures webhookUrl != "" && |matches| > 0 ==>
      && d.posted == Some(BuildBatchMessage(matches, now))
      && (d.success <==> response == Answered(true))
    ensures d.success ==> webhookUrl != ""
  {
    if webhookUrl == "" then Delivery(false, None)
    else if |matches| == 0 then Delivery(true, None)
    else
      var message := BuildBatchMessage(matches, now);
      match response
      case Answered(ok) => Delivery(ok, Some(message))
      case Threw => Delivery(false, Some(message))
  }

  /** `sendNotification(item, matchedFilters)`: the single-item message, same failure rules. */
  function SendNotification(webhookUrl: string, item: FeedItem, matchedFilters: seq<Filter>, response: WebhookResponse, now: string): (d: Delivery)
    ensures webhookUrl == "" ==> d == Delivery(false, None)
    ensures webhookUrl != "" ==>
      && d.posted == Some(CreateMessage(item, matchedFilters, now))
      && (d.success <==> response == Answered(true))
  {
    if webhookUrl == "" then Delivery(false, None)
    else
      var message := CreateMessage(item, matchedFilters, now);
      match response
      case Answered(ok) => Delivery(ok, Some(message))
      case Threw => Delivery(false, Some(message))
  }
}
