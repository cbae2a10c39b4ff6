# NYC pest-control lead monitor: seen-ledger and lead selection

The lead monitor polls seven sources for leads:
- four NYC Open Data sets: HPD housing violations, DOHMH restaurant inspections, 311 complaints and DOB violations;
- Reddit subreddits;
- Craigslist RSS searches;
- Twitter accounts read through Nitter RSS.

It reports each record it has not reported before, then e-mails one alert summarising the run.

This project models the decision logic of that run:

- **The seen-ledger.** A map from source name to the ids already reported, oldest first. The ledger is a Dafny class, `Monitor.Ledger`, with one method per check. Each check:
  - walks its fetched records in order;
  - reports a record when its id is new;
  - appends that id at once;
  - finally keeps only the newest 1000 ids of its source.
- **How each source turns a raw record into an id and a lead.** This includes:
  - the required id fields;
  - the composed DOHMH id;
  - the 311 address;
  - the 200-character snippets;
  - the keyword and NYC relevance tests;
  - the two regular-expression searches that pull post and tweet ids out of RSS links.
- **The alert decision.** This covers:
  - whether anything is sent;
  - the count in the subject line;
  - which sections appear, and their counts;
  - which HPD cards are marked as emergencies.

Fetching is abstracted away. A check receives what its request returned, `None` when the request or its parsing failed. The social checks receive one such value per subreddit, feed or account, in the order the code polls them.

Modules, in dependency order:

- `Text`: the string operations the code relies on, namely substring test, ASCII lowering, prefix cut, join and decimal formatting.
- `LinkIds`: the two link scanners, proved to implement leftmost-match and greedy-group semantics over ASCII digits.
- `Dedup`: the shared dedup discipline.
  - `Scan` is the specification of one check's loop.
  - `ScanBatch` is that loop.
  - `Retain` is the trim to the newest ids.
  - The lemmas relate these to an independent "first sighting" filter, to distinctness and to a later run.
- `Relevance`: the keyword lists and the relevance predicates.
- `Sources`: per-source lead records, id extraction and filters, with one lemma per source stating exactly which ids it reports.
- `Alerts`: the e-mail decision.
- `Monitor`: how the ledger evolves over a run.
  - `SocrataCheck`, `SocialCheck` and `MonitorRun` are the specification functions.
  - The `Ledger` class holds the imperative checks, proved equal to them.
- `RssAsWritten`: the RSS loops exactly as written, including an input on which they disagree with the intended behaviour (see Findings).

Where the repository's design description and the code disagree, the model follows the code:
- The retention limit is 1000 ids per source, not 2000.
- There is no `ecb` source.
- A missing ledger file gives the default of seven empty lists. A corrupt file is not replaced by that default.
- Nothing in the code computes a parcel id.

## Model

| member | source | states |
|---|---|---|
| Text.LowerAppend | lead_monitor.py:321-325 | Lowering two strings and joining them gives the same text as lowering their join. |
| Text.ContainsIffOccurs | lead_monitor.py:326 | The substring test holds exactly when the needle stands in the text at some offset. |
| Text.Truncate | lead_monitor.py:340 | A cut to `n` characters is a prefix of the text, of length `n`, or the whole text when it is shorter. |
| Text.DecimalRoundTrip | lead_monitor.py:698 | The decimal form of a count is all digits, has no leading zero, and reads back as the same count. |
| LinkIds.DigitRun | lead_monitor.py:397 | The digits taken from an offset are a slice of the text, all digits, and stop only at the end of the text or at a non-digit. This is the greedy `\d+` group, with `\d` read as ASCII 0-9. |
| LinkIds.HtmlAtIffMatch | lead_monitor.py:397 | The scanner's test at an offset holds exactly when "/", digits and ".html" stand there. The only group length that fits is the full digit run. |
| LinkIds.NoHtmlMatchAt | lead_monitor.py:397 | Where the scanner's test fails, the post-id pattern matches at that offset with no group length. |
| LinkIds.HtmlGroupUnique | lead_monitor.py:397 | At one offset the post-id pattern can match with only one number of digits. |
| LinkIds.HtmlPostIdFromIsLeftmost | lead_monitor.py:397-401 | The scan from an offset returns nothing exactly when the pattern matches nowhere after it. Otherwise it returns the group of the leftmost match after it. |
| LinkIds.HtmlPostId | lead_monitor.py:397-401 | A Craigslist link's post id is `None` exactly when the pattern matches nowhere. Otherwise it is the digits of the leftmost match. |
| LinkIds.StatusAtIffMatch | lead_monitor.py:474 | The scanner's test at an offset holds exactly when "/status/" followed by a digit stands there. The group it takes is a valid group, and the longest one. |
| LinkIds.TweetIdFromIsLeftmost | lead_monitor.py:474-478 | The scan from an offset returns nothing exactly when the status pattern matches nowhere after it. Otherwise it returns the longest group of the leftmost match. |
| LinkIds.TweetId | lead_monitor.py:474-478 | A Nitter link's tweet id is `None` exactly when the pattern matches nowhere. Otherwise it is the greedy group of the leftmost match. |
| Dedup.ScanIdsExactly | lead_monitor.py:79-92 | An id is reported for a batch exactly when some record of the batch is accepted with it and the ledger did not already hold it. |
| Dedup.ScanDistinct | lead_monitor.py:79-92 | The reported ids are pairwise distinct and none was in the ledger. A duplicate-free ledger stays duplicate-free after they are appended. |
| Dedup.ScanSound | lead_monitor.py:79-92 | Every reported (id, lead) pair is the verdict of some record of the batch. |
| Dedup.ScanAppend | lead_monitor.py:307-344 | Scanning two batches in a row equals scanning the first, then scanning the second against the ledger the first one left. |
| Dedup.ScanBatch | lead_monitor.py:79-92 | The loop returns the leads of the scan in batch order, and the ledger list followed by their ids. |
| Dedup.ScanIsFirstSightings | lead_monitor.py:79-92 | The scan equals an independent filter that keeps, in batch order, each record that is the first accepted with its id among records whose id the ledger did not hold. |
| Dedup.Retain | lead_monitor.py:95 | The trimmed list is the last `min(n, 1000)` ids of the list. |
| Dedup.RetainKeepsNewest | lead_monitor.py:95 | Every id among the newest 1000 survives the trim, and the trim introduces no duplicate. |
| Dedup.RetainAppend | lead_monitor.py:92-95 | After appending and trimming, the list: has at most 1000 ids; is a suffix of old list plus new ids; is exactly that when it fits; keeps every new id when no more than 1000 were added; stays duplicate-free. |
| Dedup.NoReReport | lead_monitor.py:79-95 | An id reported by one check, with at most 1000 reported, is not reported again by a later check on the trimmed ledger. |
| Relevance.RedditTextIsRelevanceText | lead_monitor.py:321-325 | Reddit's text, lowered field by field and then joined, is the text Craigslist and Twitter lower after joining. |
| Relevance.MentionsKeywordIffOccurs | lead_monitor.py:326 | The keyword test holds exactly when some lowered keyword occurs in the text at some offset. |
| Sources.DohmhIdInjective | lead_monitor.py:131 | When restaurant ids contain no underscore, the composed DOHMH id determines both the restaurant id and the inspection date. |
| Sources.BuildComplaintAddress | lead_monitor.py:194-204 | The loop that builds the 311 address gives: the non-empty incident address and borough joined by ", ", or "Address not provided" when both are empty. |
| Sources.HpdReportsExactly | lead_monitor.py:79-92 | HPD reports exactly the non-empty `violationid` values present in the batch and absent from the ledger. Each lead carries its id. |
| Sources.DohmhReportsExactly | lead_monitor.py:129-145 | DOHMH reports exactly the composed ids of the batch absent from the ledger, with no emptiness test. Each lead carries its id. |
| Sources.ComplaintReportsExactly | lead_monitor.py:189-210 | 311 reports exactly the non-empty `unique_key` values present in the batch and absent from the ledger. Each lead carries its id. |
| Sources.DobReportsExactly | lead_monitor.py:248-262 | DOB reports exactly the non-empty `isn_dob_bis_extract` values present in the batch and absent from the ledger. Each lead carries its id. |
| Sources.RedditReportsExactly | lead_monitor.py:318-344 | Reddit reports an id exactly when some post has it, mentions a keyword, and is in an NYC subreddit or mentions NYC, and the ledger lacks it. Each lead is built from a qualifying post with that id, its text being the first 200 characters of the body. |
| Sources.CraigslistReportsExactly | lead_monitor.py:383-419 | Craigslist reports an id exactly when some item has a title and a link, the link's leftmost post id is it, the text mentions a keyword, and the ledger lacks it. Each lead carries the title and link of a qualifying item with that id and the first 200 characters of its description. |
| Sources.TweetReportsExactly | lead_monitor.py:460-500 | Twitter reports an id exactly when some item has a title and a link, the link's status id is it, the text mentions a keyword and NYC, and the ledger lacks it. |
| Alerts.NonEmptyKeeps | lead_monitor.py:538-679 | Dropping the sources without leads keeps exactly the sections with leads, and keeps the sum of the counts. |
| Alerts.SectionCountsSumToTotal | lead_monitor.py:538-679 | The per-section "(n new)" counts add up to the run's total. |
| Alerts.SectionsOnlyForLeads | lead_monitor.py:538-679 | A source has a section in the message exactly when it has leads. |
| Alerts.SubjectCountRoundTrip | lead_monitor.py:698 | The count read back from the subject line is the count it was built from. |
| Alerts.SendEmailAlert | lead_monitor.py:512-698 | No message exactly when all seven lists are empty. Otherwise: the subject states the seven lengths' sum; section counts add to it; an HPD card is an emergency exactly when its class is "C". |
| Alerts.MainAlert | lead_monitor.py:735-749 | The guard on the total agrees with the alert's own emptiness test, so a message goes out exactly when the total is positive. |
| Monitor.EmptyLedger | lead_monitor.py:34-39 | The default ledger has exactly the seven source names, each with an empty list. |
| Monitor.Commit | lead_monitor.py:92-96 | Saving a check's ids keeps every source name and changes no other source's list. |
| Monitor.CommitKeeps | lead_monitor.py:92-96 | The saved list has at most 1000 ids. It is the newest ids of old list plus new ids, exactly that when it fits, and keeps every new id when no more than 1000 were added. A duplicate-free ledger stays so. |
| Monitor.SocrataCheck | lead_monitor.py:72-103 | An Open Data check changes only its own list. A failed fetch, or a missing list, reports nothing and leaves the ledger as it was. |
| Monitor.SocialCheck | lead_monitor.py:302-354 | A social check keeps every source name and changes only its own list. |
| Monitor.VisitedIsScan | lead_monitor.py:307-348 | Visiting the partitions one at a time, skipping the failed ones, is one scan of all their items in order. |
| Monitor.CommitReportsNew | lead_monitor.py:79-96 | The ids reported by a check were not in the list before and are pairwise distinct. All are in the saved list when no more than 1000 were reported. The list is capped, and no duplicate appears. |
| Monitor.SocrataReportsNew | lead_monitor.py:72-103 | The same for an Open Data check, whatever the fetch returned. |
| Monitor.SocialReportsNew | lead_monitor.py:302-354 | The same for a social check, whatever each partition returned. |
| Monitor.OpenDataChecks | lead_monitor.py:726-729 | The four Open Data checks keep every source name and change no list but their own four. |
| Monitor.SocialChecks | lead_monitor.py:730-732 | The three social checks keep every source name and change no list but their own three. |
| Monitor.MonitorRun | lead_monitor.py:726-732 | A run keeps every name of the ledger and changes nothing outside the seven source lists. |
| Monitor.Ledger.constructor | lead_monitor.py:34-39 | A ledger for which nothing was saved starts as the default of seven empty lists. |
| Monitor.Ledger.CheckSocrata | lead_monitor.py:72-103 | The shared Open Data loop returns the leads and leaves the ledger that `SocrataCheck` specifies. |
| Monitor.Ledger.CheckSocial | lead_monitor.py:302-354 | The shared social loop over partitions returns the leads and leaves the ledger that `SocialCheck` specifies. |
| Monitor.Ledger.CheckHpd | lead_monitor.py:46-103 | The HPD check meets its specification. Its leads' ids are new, pairwise distinct, and saved when at most 1000. No list gains a duplicate. |
| Monitor.Ledger.CheckDohmh | lead_monitor.py:105-155 | The same for DOHMH, keyed by the composed restaurant and date id. |
| Monitor.Ledger.Check311 | lead_monitor.py:157-220 | The same for 311 complaints. |
| Monitor.Ledger.CheckDob | lead_monitor.py:222-272 | The same for DOB violations. |
| Monitor.Ledger.CheckReddit | lead_monitor.py:274-354 | The same for the 43 subreddits. The saved Reddit list has at most 1000 ids. |
| Monitor.Ledger.CheckCraigslist | lead_monitor.py:356-429 | The same for the four Craigslist feeds. The saved list has at most 1000 ids. |
| Monitor.Ledger.CheckTwitter | lead_monitor.py:431-510 | The same for the four Twitter accounts. The saved list has at most 1000 ids. |
| Monitor.Ledger.RunOpenData | lead_monitor.py:726-729 | The first four checks in order, each starting from the ledger the previous one saved. |
| Monitor.Ledger.RunSocial | lead_monitor.py:730-732 | The Craigslist, Twitter and Reddit checks in that order. |
| Monitor.Ledger.RunMonitor | lead_monitor.py:719-749 | A run's leads and final ledger are those `MonitorRun` specifies. Its alert is `MainAlert` of those leads: sent exactly when the total is positive. |
| RssAsWritten.CraigslistStepAgrees | lead_monitor.py:384-419 | On an item whose description is not an element without text, the Craigslist body as written makes the intended decision. |
| RssAsWritten.TweetStepAgrees | lead_monitor.py:461-500 | The same for the Twitter body. |
| RssAsWritten.FeedAsWrittenIsScan | lead_monitor.py:373-423 | A feed walked as written, aborting on an exception, equals the intended scan whenever the body makes the intended decision on every item. |
| RssAsWritten.CraigslistFeedAsWrittenIsScan | lead_monitor.py:383-423 | A Craigslist feed with no text-less description is handled as written exactly as the model handles it. |
| RssAsWritten.TweetFeedAsWrittenIsScan | lead_monitor.py:460-504 | The same for a Twitter feed. |
| RssAsWritten.SkipsThenRaise | lead_monitor.py:373-423 | A feed whose first items the written body skips and whose next item raises yields nothing. |
| RssAsWritten.CraigslistNoTextEndsFeed | lead_monitor.py:384-423 | Suppose every item before some item is skipped as written, and that item has a title, a link whose post id is new, and a description element without text. Then the feed as written reports nothing, whatever follows. |
| RssAsWritten.TweetNoTextEndsFeed | lead_monitor.py:461-504 | The same for a Twitter feed, with a new status id. |
| RssAsWritten.CraigslistSampleAsWritten | lead_monitor.py:394-408 | On the sample feed the code as written reports no post. |
| RssAsWritten.CraigslistSampleIntended | lead_monitor.py:394-419 | On the same feed the intended reading reports posts 1 and 2. |
| RssAsWritten.TweetSampleAsWritten | lead_monitor.py:471-484 | On the sample Nitter feed the code as written reports no tweet. |
| RssAsWritten.TweetSampleIntended | lead_monitor.py:471-500 | On the same feed the intended reading reports tweet 1. |

## Left out

- HTTP requests, the SoQL filter queries and the status-code tests. Records are taken as the server returned them, and a failed request is a `None` input.
- Reading and writing `seen_leads.json`. The ledger is in-memory state, and the code's separate load and save around each check are modelled as that state persisting from check to check. A ledger read back from disk is any map, and only the missing-file default is a constructor.
- ElementTree parsing and its `.//item` search. An RSS item is four possibly missing elements, and a child without text is distinguished from a missing one.
- The clock. This covers the date bounds of the queries and Reddit's `created` field, which is left out of the Reddit lead.
- The HTML markup of the alert, the SendGrid request and its response, environment configuration and logging.
- Exceptions other than failed fetches.
  - They are not modelled in `Monitor`, except that an Open Data check whose list is missing from the ledger reports nothing and saves nothing, since that KeyError happens inside its handler.
  - The social checks require their list to exist, because they index the ledger outside their handler and the run would stop.
- JSON values other than strings. Records are maps from strings to strings.
  - Reddit's `data`/`children` wrapper is flattened, so a page is the list of post bodies.
  - A `null` title or body, which would raise, is not modelled.
- Text.Lower: does not model Unicode case mapping, so non-ASCII letters are left unchanged.
- LinkIds.DigitRun: reads `\d` as ASCII 0-9, whereas Python's `re` on a str pattern also matches every other Unicode decimal digit; the links these feeds carry use ASCII digits.
- LinkIds.HtmlPostId: its leftmost-match contract is over ASCII digits, so a link such as "/\u0663.html" (an Arabic-Indic digit) gives `None` here and a post id in Python.
- LinkIds.TweetId: the same ASCII reading of `\d`, so "/status/\u0663" gives `None` here and a tweet id in Python.
- Monitor.MonitorRun: states only the frame of the whole run. What each source may report, and what it saves, is stated on the Ledger check methods and on `SocrataReportsNew` and `SocialReportsNew`, not composed into one lemma about the run.
- Reddit tests relevance before the ledger, while the other sources test the ledger first. Both tests only skip records, so the order does not change what is reported, and the model applies them as one condition.
- The aborted feed of the finding below is modelled in `RssAsWritten` only. The `Monitor` checks use the intended reading, in which a text-less description is empty.

## Findings

| source | as written | input that shows it | evidently intended | confidence | as-written member | corrected member |
|---|---|---|---|---|---|---|
| lead_monitor.py:394-408 | A present description element without text gives `None`. Joining it to the title for the relevance test raises TypeError, so the handler abandons the rest of that Craigslist feed. | Item "mice", link "/1.html", empty `<description/>`, then item "mice", link "/2.html", no description element | Read the description as "" like the title and link, so both posts are reported | high, not executed | RssAsWritten.CraigslistSampleAsWritten | RssAsWritten.CraigslistSampleIntended |
| lead_monitor.py:471-484 | The same `None` in the Twitter loop raises at the relevance test and abandons the rest of that account's feed. | Item "nyc mice", link "/status/1", empty `<description/>` | Read the description as "", so tweet 1 is reported | high, not executed | RssAsWritten.TweetSampleAsWritten | RssAsWritten.TweetSampleIntended |
