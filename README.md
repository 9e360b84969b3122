# MTS Content Analytics: a verified model of the data path

The service collects a channel's latest videos from the YouTube Data API and
stores them in an MWS Tables datasheet without duplicating external ids. It
answers questions about them through an answering service (OpenRouter), with a
deterministic local analytics answer as the fallback. This project models the
parts that shape data:

- `services/llm_client.py`:
  - normalisation of content items and their engagement rate
    ((likes + comments) / views, 0 without views);
  - the local answer: the metric is chosen from the question, the top 3 come
    from a stable descending sort, and the conclusion carries the sample means;
  - every branch of `ask_llm`.
- `services/mws_client.py`: `fetch_content_items` and `upsert_content_items`.
  - Reading keeps the last `limit` records and skips records whose numbers do
    not convert.
  - Writing creates only the items whose external id the table lacks.
- `services/youtube_client.py`: how the search and videos responses map to
  content items.
- `main.py`:
  - the fallbacks of `/sync`: video platform, else two fixed items;
  - the fallbacks of `/chat`: table store, else video platform, else the
    fixed items;
  - the answer `/chat` would give if `ask_llm` raised `LLMClientError`
    (unreachable as written, because `ask_llm` never raises it).

Every HTTP exchange is an input value: a status and the decoded body as far as
the code reads it. Environment variables are strings, and `""` stands for
unset. Answers are sequences of abstract lines (header, entries, conclusion)
rather than rendered Russian text.

Files:

- `common.dfy`: `Option`, `Result`, the content item and the engagement rate.
- `ranking.dfy`: Python's `sorted(..., reverse=True)` as a stable insertion
  sort. It is proved sorted, a permutation and stable, and to be the only
  sort with those three properties.
- `llm_client.dfy`, `mws_client.dfy`, `youtube_client.dfy` and `app.dfy`: one
  module per source file.

Every loop of the source is a method proved equal to a specification
function. The properties are proved about that function.

## Model

| member | source | states |
|---|---|---|
| Common.EngagementRate | services/llm_client.py:34-37 | The rate times views equals likes + comments when views > 0, and 0 otherwise (never a division by zero) |
| Ranking.SortDescCorrect | services/llm_client.py:77 | The sort's output is in descending key order, is a permutation of the input, and keeps every class of equal keys in input order (Python's sort is stable) |
| Ranking.SortedWithSameClassesUnique | services/llm_client.py:77 | Two descending sequences with the same equal-key classes are equal, so a stable descending order is unique |
| Ranking.SortDescIsTheStableSort | services/llm_client.py:77 | Any descending, class-preserving rearrangement of the input is the model's sort |
| Ranking.TopOfSortDesc | services/llm_client.py:77-78 | The first n of the sort: min(n, len) items, each with a key at least that of every item left out; listed and left-out items together are the input; per key class they are the input's earliest |
| Ranking.Take | services/llm_client.py:78 | `s[:n]` has length min(n, len) and is a prefix of `s` |
| LlmClient.Normalize | services/llm_client.py:31-48 | Present fields are kept; missing or falsy counts become 0; missing platform, title and url become "YouTube", "Без названия" and ""; the engagement rate is (likes + comments) / views for positive views, else 0 |
| LlmClient.NormalizeAll | services/llm_client.py:25-50 | One normalised record per input item, in input order |
| LlmClient.BuildContext | services/llm_client.py:25-50 | The append loop produces exactly the per-item normalisation of all items, in order |
| LlmClient.Lower | services/llm_client.py:67 | Lower-casing keeps the length and maps each character independently |
| LlmClient.MetricIgnoresCase | services/llm_client.py:67-68 | The metric chosen for a question and for its lower-cased form is the same |
| LlmClient.RootInAnyCaseSelectsEngagement | services/llm_client.py:67-75 | A question containing the root "вовлеч" in any letter case ranks by engagement rate |
| LlmClient.TruncDiv | services/llm_client.py:91-97 | `int(a / n)` truncates toward zero: q*n <= a < q*n + n for a >= 0, and the mirror image for a < 0 |
| LlmClient.ReportLines | services/llm_client.py:80-100 | Header, blank line, entries ranked 1, 2, 3 in order, blank line, conclusion, in those positions |
| LlmClient.LocalAnswerOf | services/llm_client.py:53-102 | The "no data" answer is given exactly when there are no items |
| LlmClient.GenerateLocalAnswer | services/llm_client.py:53-102 | The line-appending loop produces the local answer for every question and item list |
| LlmClient.LocalAnswerRanking | services/llm_client.py:64-100 | The header names the metric chosen from the question and the sample size. The entries are the first min(3, n) items of the stable descending sort, each ranking at least as high as every item not listed. Listed plus unlisted items are the sample. The conclusion holds the means over the whole sample |
| LlmClient.MeanViewsWithinRange | services/llm_client.py:91-97 | The reported mean views lies between the sample's least and greatest views |
| LlmClient.FiveItemViewsExample | services/llm_client.py:64-100 | For views 100, 50, 200, 10, 5 and a question without the engagement root, the entries are 200, 100, 50 and the mean is int(365/5) = 73 |
| LlmClient.Ask | services/llm_client.py:105-184 | The service's text is returned unchanged exactly when a key is set, there are items and the reply is a 200 with non-empty string content. Otherwise the local answer over the same question and items is returned |
| LlmClient.AskLlm | services/llm_client.py:105-184 | Returns the reply above. A request is sent exactly when a key is set and there are items, and its context holds one numbered line per normalised item, in order |
| LlmClient.NumberContext | services/llm_client.py:122-129 | The prompt context has one line per normalised item, numbered from 1 in input order |
| MwsClient.ZeroLimitKeepsEverything | services/mws_client.py:57-59 | As written, a limit of 0 keeps every record (`records[-0:]` is the whole list) |
| MwsClient.LastRecords | services/mws_client.py:57-59 | The selection is a suffix of the records of length min(max(limit, 0), len), or all of them without a limit |
| MwsClient.LastRecordsAgreeForPositiveLimits | services/mws_client.py:57-59 | For every positive limit the corrected selection equals the code's selection |
| MwsClient.ToStoredItem | services/mws_client.py:63-76 | Present fields are kept as stored; missing fields get the defaults "YouTube", "", "", "", and missing or falsy numbers become 0 |
| MwsClient.ConvertAllSkipsOnlyBadRecords | services/mws_client.py:62-79 | A record whose numbers fail conversion is skipped and changes nothing else; a convertible record contributes its own item in place |
| MwsClient.ConvertAllLength | services/mws_client.py:62-79 | At most one item per record, and exactly one per record when all of them convert |
| MwsClient.ConvertAllMembers | services/mws_client.py:62-79 | An item is read exactly when some record converts to it |
| MwsClient.ContentItemsOf | services/mws_client.py:29-81 | Missing base URL or table id, missing token, and a non-200 list each give their error. Success happens exactly when all three settings are present and the status is 200. The items are then the conversions of the last `limit` records, in stored order, at most `limit` of them |
| MwsClient.FetchedItemsComeFromLastRecords | services/mws_client.py:55-81 | The items read are the conversions of the convertible records among the last `limit` records, in stored order and once each; an item is read exactly when one of those records converts to it |
| MwsClient.FetchContentItems | services/mws_client.py:29-81 | The read loop produces exactly the result above |
| MwsClient.ExistingIds | services/mws_client.py:111-118 | An id is counted as existing iff some stored record has it as a non-empty external id |
| MwsClient.NewItemsCounts | services/mws_client.py:121-124 | An item is kept exactly as often as it occurs in the input when its id is not stored, and not at all otherwise |
| MwsClient.NewItemsOrdered | services/mws_client.py:121-124 | Kept items come from the input and have no stored id, and the filter distributes over concatenation, so input order is kept |
| MwsClient.NewItemsKeepTableDuplicateFree | services/mws_client.py:84-128 | When the input's ids are distinct, the created records have distinct ids, none of them already stored |
| MwsClient.InputDuplicatesAreNotCollapsed | services/mws_client.py:121-124 | Two input items with the same new id are both created |
| MwsClient.PayloadOf | services/mws_client.py:131-152 | A payload carries the item's fields and the rate (likes + comments) / views, or 0 without views |
| MwsClient.Payloads | services/mws_client.py:131-152 | One payload per new item, in order |
| MwsClient.UpsertResult | services/mws_client.py:84-167 | Configuration errors first, then a failed list. The create error happens exactly when there are new items and the create status is neither 200 nor 201. Success happens exactly when the settings are present, the list succeeds and either nothing is new or the create status is 200 or 201. The count is then the number of new items (0 when nothing is new), at most the input's |
| MwsClient.CollectExistingIds | services/mws_client.py:111-118 | The collecting loop yields exactly the existing ids |
| MwsClient.FilterNewItems | services/mws_client.py:120-124 | The filter loop yields exactly the new items |
| MwsClient.BuildPayloads | services/mws_client.py:130-152 | The payload loop yields exactly the payloads of the new items |
| MwsClient.UpsertContentItems | services/mws_client.py:84-167 | Returns the result above; the create request is sent only when there are new items, with their payloads |
| YouTubeClient.VideoIds | services/youtube_client.py:52 | One id per search hit, in order |
| YouTubeClient.ToContentItem | services/youtube_client.py:71-93 | Platform "YouTube", the video's id, watch URL `https://www.youtube.com/watch?v=<id>`, title or "Video <id>", and present counts kept, absent ones 0 |
| YouTubeClient.WatchUrlInjective | services/youtube_client.py:77 | Different videos get different watch URLs |
| YouTubeClient.ToContentItems | services/youtube_client.py:69-93 | One content item per video record, in order |
| YouTubeClient.ChannelVideos | services/youtube_client.py:20-95 | Missing key or channel, a failed search, and (after a non-empty search) a failed videos request each give their error, in that order. Success happens exactly when the settings are present, the search succeeds and either it is empty or the videos request succeeds. An empty search gives no items. Otherwise the items are the conversions of the video records, one per record in order, each with its id, watch URL, title or "Video <id>", and counts or 0 |
| YouTubeClient.FetchChannelVideos | services/youtube_client.py:20-95 | The loop yields the result above; it sends no request without configuration and no second request after a failed or empty search |
| App.PlatformItemsOr | main.py:69-105 | The video platform's items, or the two fixed dummy items when it fails |
| App.SyncContent | main.py:59-119 | `/sync` returns the platform's items (or the dummies) with `synced` equal to their number, whatever the table write's outcome, and that write is the upsert of exactly those items |
| App.AsRawItems | main.py:144-155 | Each item becomes a dict with all seven keys, in order |
| App.StoredContent | main.py:136 | The table store's items keep their content fields, in order |
| App.ChatItems | main.py:132-177 | Non-empty table-store items are used first. A failing or empty store falls back to the platform's items, and a failing platform falls back to the dummies |
| App.AppendAsDicts | main.py:142-155 | The append loop adds the platform's items as dicts after the existing ones |
| App.ChatSource | main.py:132-177 | Builds the items above and asks the video platform exactly when the store failed or was empty |
| App.Chat | main.py:122-182 | The answer is `ask_llm`'s over the question and the chosen items |
| App.FirstMaxViews | main.py:187 | `max(..., key=views)` picks the first item with the most views |
| App.ErrorFallback | main.py:183-199 | (Unreachable as written; see Left out.) The "no data" fallback is given exactly when there are no items. Otherwise the fallback names the first most-viewed item's title, views and likes |
| App.DummyFallbackNamesSecondVideo | main.py:158-199 | Over the dummy items, the fallback names "Тестовое видео №2" with 5678 views and 430 likes |

## Left out

- HTTP requests, JSON decoding, timeouts and the `.env` loading are not modelled. Their outcomes are inputs.
  - `requests` exceptions and JSON decoding errors in the table-store and video-platform clients are not modelled. They are not `MWSClientError` or `YouTubeAPIError`, so `main.py` does not catch them and the request fails.
- Logging (`print`), FastAPI routing, pydantic validation and the `/ping` and `/` endpoints are not modelled.
- Prompt wording, the rendered text of answers and `:.3f` float formatting are not modelled. Answers are abstract lines. Engagement rates are exact rationals rather than binary floats.
- `max_results` and the model name `OPENROUTER_MODEL` are not modelled. They only shape requests.
- `_get_headers` is modelled only as its missing-token error; the header values are not.
- LlmClient.Normalize: a count that `int()` cannot convert raises in the source and is not modelled. Every caller passes integers.
- LlmClient.Normalize: a present string field whose value is `None` is not distinguished from any other present value.
- LlmClient.Lower: only the Latin and Cyrillic capitals are folded. The rest of Unicode case mapping in `str.lower` is not modelled.
- App.ErrorFallback: `ask_llm` never raises `LLMClientError`, so this branch of `/chat` cannot be reached as written. The fallback is modelled as a function on its own.
- App.SyncContent: the pydantic re-validation of each item is an identity on well-typed items, and it is modelled as such.

## Findings

| source | as written | input that shows it | evidently intended | confidence | as-written member | corrected member |
|---|---|---|---|---|---|---|
| services/mws_client.py:58-59 | `records[-limit:]` after `len(records) > limit`. A limit of 0 gives `records[-0:]`, the whole list. A negative limit drops records from the front | `fetch_content_items(limit=0)` over one stored record returns that record | the last `limit` records, none for a limit of 0 | not executed | MwsClient.ZeroLimitKeepsEverything (over MwsClient.LastRecordsAsWritten) | MwsClient.LastRecords (used by MwsClient.FetchContentItems; agrees with the code for every positive limit, including the 5 `/chat` passes) |
