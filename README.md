# ProductHot core, modelled in Dafny

ProductHot is a single-page web application that gathers technology news. It fetches a nested
"product insights" payload from the back end. The payload holds new product launches, Reddit
discussions and trending topics, each grouped by source. The client flattens it into one list of
news items and splits that list into three channels. A client-side store keeps favourites,
bookmarks, read history and filter state. Around that sit small helpers:

- retry, cache, auth and error-classification middleware;
- the Axios request and response interceptors;
- an API debugger that records redirect chains and prints a markdown report;
- SEO string builders and schema.org structured-data builders;
- environment and log-level selection;
- the light/dark theme switcher.

This project models those parts, one Dafny module per source file:

| module | source |
|---|---|
| `HomePage` | `src/pages/HomePage.tsx` |
| `NewsStore` | `src/store/index.ts` |
| `Middleware` | `src/middleware/index.ts` |
| `Seo` | `src/config/seo.ts` |
| `StructuredData` | `src/utils/structuredData.ts` |
| `ApiDebugger` | `src/utils/apiDebugger.ts` |
| `ApiDebugPage` | `src/components/debug/ApiDebugPage.tsx` |
| `NewsCard` | `src/components/news/NewsCard.tsx` |
| `SmartSection` | `src/components/common/SmartSectionRenderer.tsx` |
| `ProductInsights` | `src/hooks/useProductInsights.ts` |
| `NewsFilters` | `src/components/news/NewsFilters.tsx` |
| `Theme` | `src/theme/index.ts` |
| `EnvConfig` | `src/config/environment.ts` |
| `EnvUtils` | `src/utils/environment.ts` |
| `ApiConfig` | `src/services/api/config.ts` |

Shared modules:

- `NewsModel`: the payload and `NewsItem` shapes from `src/services/api/index.ts`.
- `Wrappers`: `Option`, JavaScript truthiness of optional strings, and `||` with a fallback.
- `Strings`: join, concatenation, substring search, ASCII lower-casing, decimal rendering.
- `SeqUtils`: de-duplication that keeps first occurrences in their order, first-index lookup, and prefix taking.
- `Browser`: `localStorage` and the document root's style and attributes. These are small
  classes that the theme and interceptor code update in place.

How the model follows the source:

- Where the source mutates an object, the model is a class, and each method's `ensures`
  gives the new state as a function of the old one. The classes are the Zustand stores, the
  cache, the loading flag, the redirect tracker, the filter bar, the debug page, the insights
  hook, the request config, storage and the document root.
- Where the source loops, the model is a method with a loop. These are the flattening of
  the payload, the retry loop, the batch debugger, report generation and theme
  application. Each such method is proved equal to a recursive specification function.
- Lemmas state the promised properties about those functions.
- Awaited calls whose results the code cannot see become inputs. These are the news, debug
  and like requests, the clock, `Math.random` and `toLocaleString`. They appear as outcome
  values or as functions from an index to a result.

Where the code does not do what its names, types or wiring suggest, the model follows the code:

- `HomePage.tsx:86-91` destructures `productInsights` and `loading` from `useProductInsights()`.
  That hook returns `data` and `isLoading` (`src/hooks/useProductInsights.ts:59-69`). As wired,
  the effect at `HomePage.tsx:195-243` therefore never runs. The model states what that effect
  computes when it is given a payload.
- The catch block in `debugMultipleEndpoints` (`apiDebugger.ts:147-149`) cannot be reached,
  because `debugEndpoint` turns every exception into a result. The same holds for the catch
  blocks of the two debug-page handlers. The model has no failure path for them.
- The header comment of `apiDebugger.ts:21` introduces the tool as a diagnosis of 307
  redirects, but `debugEndpoint` never issues a second request itself. Following is left to the
  HTTP client (`maxRedirects` at line 48, 0 unless `followRedirects` is set), and the code only
  records the 3xx responses the client reports.
- The store's date sort reads `publishedAt`, which `NewsItem` does not have. The comparator
  therefore yields `NaN`, which `Array.prototype.sort` treats as equal, so the stable sort keeps
  the input order. `NewsStore.DateSortKeepsOrder` states this.
- In `filterNews`, an item whose title does not match and whose `summary` is `null` throws a
  `TypeError` inside the search filter. The model returns `None` there and leaves the store
  unchanged.

## Model

| member | source | states |
|---|---|---|
| HomePage.PushCategory | src/pages/HomePage.tsx:23-37 | one category loop appends one item per post, source by source and post by post, with ids counting up from the current counter, and advances the counter by the number of posts |
| HomePage.TransformNewsResponse | src/pages/HomePage.tsx:15-79 | the three category loops together build exactly the reference flattening of the payload into news items |
| HomePage.TransformedCountAndIds | src/pages/HomePage.tsx:19-26 | the flat list has one item per post over the three categories, and item k has id k+1, so ids run 1..N with no gaps |
| HomePage.TransformedCategoryBlocks | src/pages/HomePage.tsx:19-73 | the first block of items is `new_products`, then `reddits`, then `trendings`, with block sizes equal to each category's post count |
| HomePage.OriginOfPost | src/pages/HomePage.tsx:23-24 | post j of source i lands at position (posts in sources before i) + j of its category's block, so array order is kept |
| HomePage.NewProductItem | src/pages/HomePage.tsx:25-34 | the item made from a `new_products` post copies title, link = url, summary = description, likes = upvotes, tags = [source title], category `new_products`, and the date from the source's `update_time` |
| HomePage.RedditItem | src/pages/HomePage.tsx:43-52 | the same field mapping for a `reddits` post, placed after all `new_products` items |
| HomePage.TrendingItem | src/pages/HomePage.tsx:61-70 | the same field mapping for a `trendings` post, placed after the first two blocks |
| HomePage.TransformedViewsRange | src/pages/HomePage.tsx:31 | every item's views lie in 100..1099, as `floor(random*1000)+100` gives |
| HomePage.TransformedCategories | src/pages/HomePage.tsx:33 | every item's category is one of the three category names |
| HomePage.OriginsOfLength | src/pages/HomePage.tsx:23-24 | one category yields exactly as many items as its sources have posts |
| HomePage.OriginsOfCategory | src/pages/HomePage.tsx:33 | every item drawn from a category's sources carries that category |
| HomePage.DefaultNewsTransformed | src/data/defaultNews.ts:4-50 | the built-in fallback payload flattens to three items with ids 1, 2, 3 in the three categories in order |
| HomePage.FilterCategoriesSplit | src/pages/HomePage.tsx:213-233 | when every item has one of the three categories, the three category filters' sizes sum to the list length |
| HomePage.PartitionComplete | src/pages/HomePage.tsx:204-235 | there are always three channels, `new_products`, `reddits`, `trendings` in that order; an item is in a channel iff it has that channel's category; the channel sizes sum to the list length |
| HomePage.ChannelsFollowSources | src/pages/HomePage.tsx:204-235 | for each of the three channels and its source list: the update time is `暂无更新` when the list is empty or its first source has an empty time, and the formatted first time otherwise; the articles are exactly that category's block of the flattened list, as many as the list has posts, so none when it has none |
| HomePage.ChannelsOfBlocks | src/pages/HomePage.tsx:204-235 | the channel rules above hold for any list made of the payload's three category blocks |
| HomePage.TransformedBlocks | src/pages/HomePage.tsx:200 | the flattened payload is the new-products block, then the reddits block, then the trendings block, each as long as its category has posts |
| HomePage.NewProductsBlock | src/pages/HomePage.tsx:213 | in such a list the `new_products` filter returns exactly the first block |
| HomePage.RedditsBlock | src/pages/HomePage.tsx:223 | in such a list the `reddits` filter returns exactly the middle block |
| HomePage.TrendingsBlock | src/pages/HomePage.tsx:233 | in such a list the `trendings` filter returns exactly the last block |
| HomePage.BlockFilter | src/pages/HomePage.tsx:213 | when a category's items are exactly those of one slice, the filter returns that slice |
| HomePage.FilterCategoryAppend | src/pages/HomePage.tsx:213 | filtering a concatenation filters each part |
| HomePage.FilterCategoryAll | src/pages/HomePage.tsx:213 | a list whose every item has the category passes the filter unchanged |
| HomePage.FilterCategoryNone | src/pages/HomePage.tsx:223 | filtering by a category no item has gives the empty list |
| HomePage.BumpLikes | src/pages/HomePage.tsx:281-283 | same length and order; items with the id gain exactly one like; every other item is unchanged |
| HomePage.HandleNewsLike | src/pages/HomePage.tsx:275-291 | the list is bumped only when the like request succeeds and is unchanged otherwise |
| HomePage.BumpAbsentId | src/pages/HomePage.tsx:281-283 | liking an id that no item has changes nothing |
| HomePage.PresentCategories | src/pages/HomePage.tsx:299 | a string is listed iff it is non-empty and some item has it as category |
| HomePage.Categories | src/pages/HomePage.tsx:299 | the categories list has no duplicates, holds exactly the non-empty categories present in the news, and lists them in order of first appearance: of two listed categories, some item of the earlier one precedes every item of the later one |
| HomePage.FirstWith | src/pages/HomePage.tsx:299 | the index of the first item with a given category |
| HomePage.PresentOrder | src/pages/HomePage.tsx:299 | a category that first occurs earlier in the mapped-and-filtered list first occurs earlier among the items |
| HomePage.CategoryPairOrder | src/pages/HomePage.tsx:299 | for two listed categories, the first item of the earlier one precedes every item of the later one |
| HomePage.CategoriesInFirstOrder | src/pages/HomePage.tsx:299 | the same order for every pair of listed categories |
| SeqUtils.FirstIndex | src/pages/HomePage.tsx:299 | the position of an element's first occurrence |
| SeqUtils.DedupFirstOrder | src/pages/HomePage.tsx:299 | `Array.from(new Set(s))` lists elements by first occurrence: of two kept elements, the earlier one first occurs earlier in `s` |
| NewsModel.FilterCategory | src/pages/HomePage.tsx:213 | the filter keeps exactly the items of that category and is never longer than its input |
| NewsStore.AddUniqueProperties | src/store/index.ts:92-96 | adding a present id is a no-op; otherwise the id is appended at the end; adding is idempotent; membership grows by exactly the id; a duplicate-free list stays duplicate-free |
| NewsStore.RemoveAll | src/store/index.ts:98-100 | removal keeps exactly the members other than the id and never lengthens the list |
| NewsStore.RemoveAbsent | src/store/index.ts:98-100 | removing an absent id is a no-op |
| NewsStore.RemoveIdempotent | src/store/index.ts:98-100 | removing twice is the same as removing once |
| NewsStore.RemoveAllIsSubsequence | src/store/index.ts:99 | the remaining ids keep their relative order (a subsequence of the input) |
| NewsStore.RemoveAllDistinct | src/store/index.ts:99 | removal keeps a duplicate-free list duplicate-free |
| NewsStore.RemoveAllCount | src/store/index.ts:99 | removal shortens the list by exactly the number of occurrences of the id |
| NewsStore.PushHistoryProperties | src/store/index.ts:102-105 | after a read the id is first, occurs once, the history holds at most 100 entries and the other entries keep their relative order |
| NewsStore.HistoryOfDistinctReads | src/store/index.ts:102-105 | reading distinct ids one by one from empty gives the most recent 100 of them, newest first |
| NewsStore.ReReadMovesToFront | src/store/index.ts:102-105 | re-reading an id already in a duplicate-free history moves it to the front without changing length |
| NewsStore.Reverse | src/store/index.ts:103 | the reference for newest-first order: element i is the input's element from the end |
| NewsStore.CountInDistinct | src/store/index.ts:103 | in a duplicate-free history an id present occurs exactly once |
| NewsStore.CountAbsent | src/store/index.ts:103 | an absent id occurs zero times |
| NewsStore.MatchesQuery | src/store/index.ts:132-135 | an item matches iff its lower-cased title or summary contains the query; the evaluation throws (None) exactly when the title misses and the summary is null |
| NewsStore.SearchFilter | src/store/index.ts:130-136 | the search keeps exactly the matching items, or fails iff some item makes the match throw |
| NewsStore.InsertDesc | src/store/index.ts:139-149 | inserting adds exactly that item (multiset) |
| NewsStore.SortedCons | src/store/index.ts:139-149 | putting an item not smaller than the head in front of a descending list keeps it descending |
| NewsStore.InsertDescSorted | src/store/index.ts:139-149 | inserting into a descending list keeps it descending |
| NewsStore.SortDesc | src/store/index.ts:139-149 | the sort result is a permutation of its input ordered non-increasingly by the chosen key |
| NewsStore.DateSortKeepsOrder | src/store/index.ts:145-147 | the date comparator is constant, so the stable sort leaves the order untouched |
| NewsStore.InsertAtEqualKeys | src/store/index.ts:145-147 | with equal keys an insertion goes after all present items (stability) |
| NewsStore.FilterResultProperties | src/store/index.ts:120-151 | an item is kept iff its category equals the selected category (when one is selected) and it matches the lower-cased query (when one is given); the result is ordered non-increasingly by the key; it fails iff the search throws on an item that passed the category test |
| NewsStore.FilterResultPermutesKept | src/store/index.ts:120-151 | when the filter does not throw, its result is a permutation of the kept items |
| NewsStore.UnfilteredDateOrder | src/store/index.ts:120-151 | with no category, no query and date order the filtered list equals the news list |
| NewsStore.Store.constructor | src/store/index.ts:70-80 | the store starts empty, category `''`, sort `date`, query `''`, not loading, no error |
| NewsStore.Store.SetNews | src/store/index.ts:83 | sets only the news list |
| NewsStore.Store.SetFilteredNews | src/store/index.ts:84 | sets only the filtered list |
| NewsStore.Store.SetSelectedCategory | src/store/index.ts:85 | sets only the selected category |
| NewsStore.Store.SetSortBy | src/store/index.ts:86 | sets only the sort field |
| NewsStore.Store.SetSearchQuery | src/store/index.ts:87 | sets only the query |
| NewsStore.Store.SetIsLoading | src/store/index.ts:88 | sets only the loading flag |
| NewsStore.Store.SetError | src/store/index.ts:89 | sets only the error |
| NewsStore.Store.AddToFavorites | src/store/index.ts:92-96 | favourites become the idempotent append of the id; nothing else changes |
| NewsStore.Store.RemoveFromFavorites | src/store/index.ts:98-100 | every occurrence of the id leaves the favourites; nothing else changes |
| NewsStore.Store.AddToHistory | src/store/index.ts:102-105 | the history becomes the capped, de-duplicated, most-recent-first push of the id |
| NewsStore.Store.AddToBookmarks | src/store/index.ts:107-111 | bookmarks get the same idempotent append as favourites |
| NewsStore.Store.RemoveFromBookmarks | src/store/index.ts:113-115 | bookmarks get the same remove-all as favourites |
| NewsStore.Store.ClearHistory | src/store/index.ts:117 | only the read history is emptied; favourites and bookmarks are unchanged |
| NewsStore.Store.FilterNews | src/store/index.ts:120-152 | on success the filtered list is the filter-and-sort result of the current state; when the search throws nothing changes |
| NewsStore.Store.SearchNews | src/store/index.ts:155-158 | stores the query and then re-filters with it |
| NewsStore.Store.ResetFilters | src/store/index.ts:161-168 | category `''`, sort `date`, query `''` and filtered list = news |
| NewsStore.SettingsStore.constructor | src/store/index.ts:221-225 | settings start at theme `system`, language `zh`, notifications on, auto-refresh off, interval 300000 |
| NewsStore.SettingsStore.SetTheme | src/store/index.ts:228 | sets only the theme |
| NewsStore.SettingsStore.SetLanguage | src/store/index.ts:229 | sets only the language |
| NewsStore.SettingsStore.SetNotifications | src/store/index.ts:230 | sets only the notifications flag |
| NewsStore.SettingsStore.SetAutoRefresh | src/store/index.ts:231 | sets only the auto-refresh flag |
| NewsStore.SettingsStore.SetRefreshInterval | src/store/index.ts:232 | sets only the interval |
| Middleware.ClassificationPrecedence | src/middleware/index.ts:10-24 | the client notice follows the precedence 401 > 403 > 404 > status at least 500 > `NETWORK_ERROR` > the error message or `发生未知错误`; a 401 redirects to `/login` |
| Middleware.HandlerDefaults | src/middleware/index.ts:5-36 | a notice is shown iff running in a browser; a server reply is sent iff `res` is given, with status 500 when `statusCode` is missing or 0; a redirect to `/login` happens iff in a browser with status 401 |
| Middleware.RetryMiddleware | src/middleware/index.ts:39-68 | the loop's outcome, number of calls and list of waits equal the reference retry run, with an omitted `maxRetries` taken as 3 and an omitted `delay` as 1000 |
| Middleware.RetryLoop | src/middleware/index.ts:44-67 | the counted loop's outcome, number of calls and list of waits equal the reference retry run for the given attempt count and delay |
| Middleware.RetryDefaultsExhaust | src/middleware/index.ts:39-63 | with both arguments omitted, persistent failure calls `fn` 3 times, waits 1000 then 2000 ms and rethrows the third error |
| Middleware.PersistentFailureFrom | src/middleware/index.ts:46-60 | from any attempt on, persistent non-4xx failure runs every remaining attempt and rethrows the last error |
| Middleware.RetryExhaustion | src/middleware/index.ts:46-60 | persistent non-4xx failure makes exactly `maxRetries` calls, waits `delay*2^i` after each attempt but the last and rethrows the final attempt's error |
| Middleware.ClientErrorNotRetried | src/middleware/index.ts:53-55 | a 4xx on the first attempt calls `fn` exactly once and rethrows that error without waiting |
| Middleware.ClientErrorStopsAt | src/middleware/index.ts:53-55 | a 4xx at attempt k stops the loop there after k+1 calls |
| Middleware.SuccessFrom | src/middleware/index.ts:46-48 | a success at attempt k returns its value after the attempts from the current one to k |
| Middleware.RetrySucceedsAt | src/middleware/index.ts:46-48 | if attempt k is the first success, its value is returned after exactly k+1 calls and k waits `delay*2^i` |
| Middleware.RetryNeverRuns | src/middleware/index.ts:46-67 | `maxRetries <= 0` never calls `fn` and throws the undefined last error |
| Middleware.RetryBounds | src/middleware/index.ts:46-67 | a run from attempt i stops after an attempt index greater than i and at most `maxRetries`, and waits exactly once between consecutive attempts |
| Middleware.LoadingFlag.constructor | src/middleware/index.ts:71 | the loading flag starts false |
| Middleware.LoadingFlag.Run | src/middleware/index.ts:72-79 | the wrapped call's result is passed through, loading is true during the call and false afterwards whatever the outcome |
| Middleware.LookupSemantics | src/middleware/index.ts:86-96 | an absent key gives null; an entry is expired only when `now - timestamp > ttl`, then it is deleted and null returned; otherwise its data is returned and the cache is unchanged |
| Middleware.SetThenLookup | src/middleware/index.ts:86-104 | a value just set is returned while no more than ttl has passed, including at exactly ttl, and null afterwards |
| Middleware.DeleteOnlyThatKey | src/middleware/index.ts:110-112 | deleting a key leaves lookups of every other key as they were and makes that key absent |
| Middleware.CacheMiddleware.constructor | src/middleware/index.ts:84 | the cache starts empty |
| Middleware.CacheMiddleware.Get | src/middleware/index.ts:86-96 | returns the lookup result and leaves the cache as the lookup does |
| Middleware.CacheMiddleware.Set | src/middleware/index.ts:98-104 | overwrites the key with timestamp now and ttl defaulting to 300000 |
| Middleware.CacheMiddleware.Clear | src/middleware/index.ts:106-108 | empties the cache |
| Middleware.CacheMiddleware.Delete | src/middleware/index.ts:110-112 | removes only that key |
| Middleware.CacheMiddleware.WithCache | src/middleware/index.ts:115-130 | a truthy cached value is returned without running `fn`; otherwise `fn` runs, a result is stored with the given ttl and returned, and a rejection propagates with nothing stored, the read having already dropped an expired entry |
| Middleware.AuthorizeChecks | src/middleware/index.ts:160-179 | no token throws `未登录` before any role check; a role mismatch with a required role throws `权限不足`; `fn` runs only when both checks pass |
| Seo.SiteUrl | src/config/seo.ts:7 | the site url is the configured value when truthy, otherwise `https://producthot.top` |
| Seo.TitleShape | src/config/seo.ts:165-174 | an absent or empty title gives the default title; otherwise `<kw> - <title> \| ProductHot`, with the keyword prefix only when the keyword is non-empty |
| Seo.TitleEndsWithSiteName | src/config/seo.ts:168-173 | a generated page title ends with the page title followed by ` \| ProductHot` |
| Seo.Excerpt | src/config/seo.ts:180 | the excerpt is the prefix of the content of length min(140, length) |
| Seo.DescriptionShape | src/config/seo.ts:177-186 | empty content gives the default description; otherwise the excerpt, then ` 关键词：` and at most three keywords joined by `、` only when keywords are non-empty, and always a closing `...` |
| Seo.KeywordListProperties | src/config/seo.ts:189-198 | page keywords come before the defaults, duplicates are removed keeping the first occurrence, the list is capped at 10 and every keyword comes from the input or the defaults |
| Seo.PrimaryDistinct | src/config/seo.ts:10 | the default keywords are distinct |
| Seo.NoPageKeywordsGivesDefaults | src/config/seo.ts:191-192 | with no page keywords the result is exactly the default keywords joined by `, ` |
| Seo.CanonicalUrlShape | src/config/seo.ts:201-203 | site url + path when the path starts with `/`, otherwise site url + `/` + path |
| Seo.OGImageChoice | src/config/seo.ts:206-212 | no title gives site url + default image; otherwise `/api/og?title=` with the encoded title |
| StructuredData.GenerateNewsArticle | src/utils/structuredData.ts:35-65 | headline, url and dates copied; `dateModified` defaults to the published time, image to the default image, author to `ProductHot`; keywords are the tags joined by `, ` and absent without tags |
| StructuredData.RatingOf | src/utils/structuredData.ts:94-100 | a rating object exists iff both rating and review count are truthy (non-zero) and then carries both |
| StructuredData.GenerateProduct | src/utils/structuredData.ts:68-103 | brand defaults to `Unknown`; offers exist iff the price is truthy, with currency `USD` and availability `InStock` by default; the rating as above |
| StructuredData.GenerateSoftwareApplication | src/utils/structuredData.ts:153-191 | the operating system defaults to `Web Browser`; offers exist whenever a price is given, even 0; the rating as above |
| StructuredData.ZeroPriceDiffers | src/utils/structuredData.ts:84-91 | a price of 0 drops a product's offer but keeps an application's offer |
| StructuredData.ListItems | src/utils/structuredData.ts:110-115 | one list item per input, with position i+1 |
| StructuredData.LinksOf | src/utils/structuredData.ts:110-115 | recovering name and item gives one link per list item |
| StructuredData.ListItemsRoundTrip | src/utils/structuredData.ts:110-115 | numbering links and reading them back gives the links in order |
| StructuredData.ListPositionsDistinct | src/utils/structuredData.ts:112 | two list positions are equal iff they belong to the same input |
| StructuredData.GenerateBreadcrumb | src/utils/structuredData.ts:106-117 | entry i has position i+1 and the name and url of input i |
| StructuredData.GenerateCollectionPage | src/utils/structuredData.ts:223-245 | name, description and url copied; the item list holds the items in order with positions 1..n |
| StructuredData.GenerateFAQ | src/utils/structuredData.ts:137-150 | one question per input, with the question text and its answer |
| StructuredData.GenerateSearchBox | src/utils/structuredData.ts:120-134 | the search template is site url + `/search?q={search_term_string}` and the query input is required |
| StructuredData.GenerateEvent | src/utils/structuredData.ts:194-220 | location and organizer become a `Place` and an `Organization` only when provided |
| ApiDebugger.TrackIsChain | src/utils/apiDebugger.ts:60-74 | recorded redirects form a chain: it starts at the requested url, each `from` is the previous `to`, the current url ends at the last `to`, and only 3xx responses with a location are recorded |
| ApiDebugger.TrackIgnoresOthers | src/utils/apiDebugger.ts:61-65 | without a 3xx response that has a location nothing is recorded and the url stays put |
| ApiDebugger.RedirectTracker.constructor | src/utils/apiDebugger.ts:41-43 | the tracker starts with no redirects at the requested url |
| ApiDebugger.RedirectTracker.OnResponse | src/utils/apiDebugger.ts:60-77 | a 3xx response with a location appends (current url, location, status) and advances the url; any other response changes nothing |
| ApiDebugger.RequestHeaders | src/utils/apiDebugger.ts:82-86 | custom headers win; `User-Agent` and `Accept` default to the debugger's values; no other header is added |
| ApiDebugger.DebugEndpoint | src/utils/apiDebugger.ts:27-125 | the debug method's result is the reference endpoint result for the observed responses, outcome and elapsed time |
| ApiDebugger.ErrorResult | src/utils/apiDebugger.ts:107-124 | the url is always the requested one, the method defaults to GET and the redirects seen so far are kept; on an exception the final url is the requested url and the error is the exception's message, and without a response the status is 0, the text `Network Error` and the headers empty; on completion there is no error and the status is the response's |
| ApiDebugger.FinalUrlIsRequested | src/utils/apiDebugger.ts:90-95 | on a completed request whose response reports the requested url, the final url is that url |
| ApiDebugger.ResultKeys | src/utils/apiDebugger.ts:136 | one key per entry |
| ApiDebugger.Assign | src/utils/apiDebugger.ts:143 | assigning a present key replaces its value in place; a new key goes at the end; nothing else changes |
| ApiDebugger.Probe | src/utils/apiDebugger.ts:143-146 | the result of probing an endpoint names that endpoint's URL and its method, `GET` when it has none |
| ApiDebugger.DebugMultipleEndpoints | src/utils/apiDebugger.ts:130-153 | the loop, which requests each endpoint at its own URL with its own method, builds the reference aggregation of those probes |
| ApiDebugger.Names | src/utils/apiDebugger.ts:140-143 | one name per endpoint |
| ApiDebugger.AssignKeys | src/utils/apiDebugger.ts:143 | assigning keeps the key list when the key is present and appends the key otherwise |
| ApiDebugger.AggregateKeys | src/utils/apiDebugger.ts:140-150 | results are keyed by the endpoint names in first-occurrence order |
| ApiDebugger.AggregateLastWins | src/utils/apiDebugger.ts:143 | an endpoint whose name does not occur later keeps its own result under its name |
| ApiDebugger.AggregateDistinct | src/utils/apiDebugger.ts:140-150 | with distinct names, entry i is (name i, result i) |
| ApiDebugger.AggregateEntriesFromEndpoints | src/utils/apiDebugger.ts:140-150 | whatever the names, every stored entry is the probe result of an endpoint bearing the entry's name |
| ApiDebugger.BatchResultsCarryEndpoints | src/utils/apiDebugger.ts:140-150 | every stored entry reports the URL and method of an endpoint with that entry's name |
| ApiDebugger.BatchDistinctResults | src/utils/apiDebugger.ts:140-150 | with distinct names, entry i is endpoint i's name with the probe of endpoint i's URL |
| ApiDebugger.Numbered | src/utils/apiDebugger.ts:170 | redirect i is numbered first + i |
| ApiDebugger.NumberedAppend | src/utils/apiDebugger.ts:170 | numbering continues across appended redirects |
| ApiDebugger.RedirectLinesAppend | src/utils/apiDebugger.ts:170-172 | the redirect lines of a concatenation are the lines of the parts, numbered on |
| ApiDebugger.RedirectLinesSingle | src/utils/apiDebugger.ts:171 | one redirect gives exactly its numbered line |
| ApiDebugger.AppendRedirectLines | src/utils/apiDebugger.ts:170-172 | the forEach loop appends the reference redirect lines numbered from 1 |
| ApiDebugger.AppendSection | src/utils/apiDebugger.ts:162-179 | one loop iteration appends exactly the reference section of that result |
| ApiDebugger.GenerateReport | src/utils/apiDebugger.ts:158-183 | the report equals the reference rendering: the header then one section per entry in order |
| ApiDebugger.ReportAppend | src/utils/apiDebugger.ts:161-180 | the report of more entries extends the report of fewer by their sections |
| ApiDebugger.ReportStartsWithHeader | src/utils/apiDebugger.ts:159 | every report starts with `# API 调试报告` and a blank line |
| ApiDebugger.SectionFrame | src/utils/apiDebugger.ts:162-179 | every section starts with `## <name>` and ends with the final-url line and a blank line |
| ApiDebugger.RedirectBlockPresence | src/utils/apiDebugger.ts:168-173 | the redirect block is present iff there are redirects and then starts with its heading |
| ApiDebugger.RedirectNumbering | src/utils/apiDebugger.ts:170-172 | redirect i appears as line number i+1 of the block |
| ApiDebugger.ErrorLinePresence | src/utils/apiDebugger.ts:175-177 | the error line is present iff the error is a non-empty string |
| ApiDebugger.ProjectEndpoints | src/utils/apiDebugger.ts:192-213 | exactly four GET endpoints with urls base + `/api/news/`, base + `/news`, base and base + `/health`, and distinct names |
| ApiDebugger.ProjectResults | src/utils/apiDebugger.ts:195-216 | the project results hold the four endpoint names in order, each with the GET probe of its own URL (`/api/news/`, `/news`, the base, `/health` under the base URL) |
| ApiDebugger.ProjectBaseUrl | src/utils/apiDebugger.ts:190 | the base url is `VITE_API_BASE_URL` when truthy, else the environment's API base url |
| ApiDebugger.DebugProjectApis | src/utils/apiDebugger.ts:189-222 | the results are the aggregation over the four project endpoints, four entries each reporting its endpoint's URL and `GET`, and the report is their rendering |
| ApiDebugPage.StatusColorBands | src/components/debug/ApiDebugPage.tsx:36-41 | 200..299 green, 300..399 yellow, at least 400 red, every other status (including 0) gray |
| ApiDebugPage.DebugPage.constructor | src/components/debug/ApiDebugPage.tsx:5-8 | the page starts idle with no results and an empty custom url |
| ApiDebugPage.DebugPage.SetCustomUrl | src/components/debug/ApiDebugPage.tsx:115 | the input sets only the custom url |
| ApiDebugPage.DebugPage.HandleDebugProject | src/components/debug/ApiDebugPage.tsx:10-20 | busy during the call, idle afterwards, and the results are the project run's aggregation, each endpoint probed at its own URL |
| ApiDebugPage.DebugPage.HandleDebugCustomUrl | src/components/debug/ApiDebugPage.tsx:22-34 | an empty url does nothing; otherwise busy during the call, idle afterwards, with the endpoint result of that url |
| NewsCard.FormatTimeBands | src/components/news/NewsCard.tsx:46-55 | under one minute gives just now; 1..59 minutes gives minutes ago; 60..1439 gives hours ago with floor(m/60) in 1..23; from 1440 gives days ago with floor(m/1440) at least 1 |
| NewsCard.FutureIsJustNow | src/components/news/NewsCard.tsx:49-51 | a future timestamp gives just now |
| NewsCard.FormatTimeMonotone | src/components/news/NewsCard.tsx:46-55 | an older date never gets a smaller label |
| NewsCard.ToggleFlips | src/components/news/NewsCard.tsx:33-40 | a toggle flips membership of the id, leaves every other id's membership, keeps the list duplicate-free, and two toggles from absent restore the list |
| NewsCard.RemoveLast | src/components/news/NewsCard.tsx:35-37 | removing the id that was just appended gives back the earlier list |
| NewsCard.HandleLike | src/components/news/NewsCard.tsx:33-40 | the store's favourites become the toggle of the id |
| NewsCard.HandleRead | src/components/news/NewsCard.tsx:28-31 | reading pushes the id to the front of the history |
| SmartSection.RenderAll | src/components/common/SmartSectionRenderer.tsx:74 | every item is rendered, in order |
| SmartSection.RenderStates | src/components/common/SmartSectionRenderer.tsx:28-94 | loading gives the skeleton whatever error or data, with `maxCardsPerRow` defaulting to 3 and `articleCount` to 6; otherwise an error with no data gives the full error; data gives cards; no error and no data give the empty state |
| SmartSection.CardGrid | src/components/common/SmartSectionRenderer.tsx:59-86 | with data, the badge is `<len> 个来源`, the cards are every item in order, and fillers exist iff there is an error and fewer items than a row, and then fill the row to `maxCardsPerRow` |
| SmartSection.BadgeText | src/components/common/SmartSectionRenderer.tsx:59-67 | the header badge ends with ` 个来源` iff there is data |
| ProductInsights.HasDataIsAnyCategory | src/hooks/useProductInsights.ts:48-57 | `hasData` holds iff data exists and one of the three per-category flags holds |
| ProductInsights.EmptyInsightsHasNoData | src/hooks/useProductInsights.ts:28-36 | the empty fallback payload has no data in any category |
| ProductInsights.FailureText | src/hooks/useProductInsights.ts:25-33 | a failure always sets a non-empty message |
| ProductInsights.FailureTextChoice | src/hooks/useProductInsights.ts:25-33 | the message is the response message or `获取新闻数据失败` on a failed response, and the thrown message or `获取产品资讯数据失败` on an exception |
| ProductInsights.InsightsState.constructor | src/hooks/useProductInsights.ts:6-13 | the hook starts with no data, not loading, no error |
| ProductInsights.InsightsState.Fetch | src/hooks/useProductInsights.ts:16-40 | loading and no error during the call; a success stores the data; a failure stores the message and the empty payload; loading is false afterwards |
| NewsFilters.SortOptionsCoverEachOnce | src/components/news/NewsFilters.tsx:28-32 | the sort options are date, views and likes, each exactly once |
| NewsFilters.ChipsShowActiveFilters | src/components/news/NewsFilters.tsx:78-160 | the chips live in the panel: with it closed none is shown; with it open a chip is shown for the query iff non-empty, for the category iff non-empty, for the sort iff not `date`; some chip shows iff the panel is open and a filter is active |
| NewsFilters.ResetButtonShown | src/components/news/NewsFilters.tsx:65-74 | the reset button is shown iff `hasActiveFilters` (NewsFilters.tsx:40) holds, that is iff the query or the category is non-empty or the sort is not `date` |
| NewsFilters.ResetButtonIgnoresPanel | src/components/news/NewsFilters.tsx:65-78 | the reset button sits outside the panel, so it shows regardless of the panel, even when no chip can be seen |
| NewsFilters.FilterBar.constructor | src/components/news/NewsFilters.tsx:16-26 | the bar starts with the filter values it is given and the panel closed |
| NewsFilters.FilterBar.ToggleFilters | src/components/news/NewsFilters.tsx:58-78 | flips only whether the panel is shown; once closed no chip shows, once open chips show iff a filter is active |
| NewsFilters.FilterBar.ClearFilters | src/components/news/NewsFilters.tsx:34-38 | sets `''`, `''` and `date`, after which no filter is active |
| NewsFilters.FilterBar.ClearSearchChip | src/components/news/NewsFilters.tsx:126 | resets only the query |
| NewsFilters.FilterBar.ClearCategoryChip | src/components/news/NewsFilters.tsx:138 | resets only the category |
| NewsFilters.FilterBar.ClearSortChip | src/components/news/NewsFilters.tsx:150 | resets only the sort |
| Theme.NameOf | src/theme/index.ts:3 | each theme's name is `light` or `dark` |
| Theme.ThemeOf | src/theme/index.ts:2-55 | the theme for a name is the table with that name |
| Theme.CurrentTheme | src/theme/index.ts:255-262 | a saved value that is non-empty and not `system` wins; otherwise the system preference |
| Theme.Toggled | src/theme/index.ts:290-291 | toggling gives `dark` iff the current theme is `light`, otherwise `light` |
| Theme.DoubleToggle | src/theme/index.ts:289-295 | two toggles restore `light` or `dark`; any other saved value ends as `dark` |
| Theme.FollowsSystemMeansSystemTheme | src/theme/index.ts:300-307 | when nothing or `system` is saved, the current theme is the system one |
| Theme.ShadeVars | src/theme/index.ts:273-276 | one `--color-<k>-<sub>` variable per shade |
| Theme.ShadowVars | src/theme/index.ts:280-282 | one `--shadow-<k>` variable per shadow |
| Theme.SetAllSnoc | src/theme/index.ts:270-282 | setting one more variable is a map update |
| Theme.SetAllLastWins | src/theme/index.ts:270-282 | a variable ends with the value of its last assignment; an unassigned one keeps its old value |
| Theme.ColorVarNaming | src/theme/index.ts:270-278 | flat colours give `--color-<k>` and nested colours `--color-<k>-<sub>` |
| Theme.ShadowVarNaming | src/theme/index.ts:280-282 | shadow variables are named `--shadow-<k>` with the shadow's value |
| Theme.SetAllAppend | src/theme/index.ts:270-282 | applying two lists of variables is applying their concatenation |
| Theme.SetProperties | src/theme/index.ts:274-276 | the loop sets exactly the given variables in order |
| Theme.SetColors | src/theme/index.ts:270-278 | the colour loop sets exactly the theme's colour variables |
| Theme.ApplyTheme | src/theme/index.ts:265-286 | the root style gets every colour and shadow variable of the theme and `data-theme` is the theme name |
| Theme.ToggleTheme | src/theme/index.ts:289-295 | the toggled theme is stored under `theme`, applied, and returned |
| Theme.OnSystemThemeChange | src/theme/index.ts:300-307 | a system change is applied only when nothing or `system` is saved; storage is never changed |
| EnvConfig.Lookup | src/config/environment.ts:139 | reading a variable gives its value when set and nothing otherwise |
| EnvConfig.CurrentEnvironmentChoice | src/config/environment.ts:138-148 | the mode is kept if it is development, production or staging, otherwise development |
| EnvConfig.ExactlyOneEnvironment | src/config/environment.ts:166-178 | exactly one of development, production and staging holds |
| EnvConfig.ConfigChoice | src/config/environment.ts:151-163 | production selects the production config, staging the staging one, anything else development |
| EnvConfig.ConfigTable | src/config/environment.ts:45-135 | mock data is off everywhere; log levels are debug, info and error; console logging and debug mode are off only in production; retries are 2/1000, 3/1500 and 3/2000 |
| EnvUtils.ApiBaseUrl | src/utils/environment.ts:39-41 | the API base url is `https://api.producthot.top` in production, `https://staging-api.producthot.top` in staging and `http://api.producthot.top:8030` in development |
| EnvUtils.Log | src/utils/environment.ts:166-179 | a message is emitted iff console logging is on and its level is at least the configured one in the order debug, info, warn, error; it keeps its level and is prefixed with the upper-cased environment name in brackets |
| EnvUtils.LogDebug | src/utils/environment.ts:184-186 | `debug` logs at debug level, so it emits only in development |
| EnvUtils.LogInfo | src/utils/environment.ts:190-192 | `info` logs at info level and emits except in production |
| EnvUtils.LogWarn | src/utils/environment.ts:196-198 | `warn` logs at warn level and emits except in production |
| EnvUtils.LogError | src/utils/environment.ts:202-204 | `error` logs at error level and emits except in production |
| EnvUtils.LogFilter | src/utils/environment.ts:166-179 | nothing is logged in production, all but debug in staging and everything in development; with console logging on, error-level messages always pass; a message that passes also passes at any higher level |
| EnvUtils.RunByEnvironment | src/utils/environment.ts:144-161 | runs the current environment's handler if present, else the default, else nothing |
| EnvUtils.UnknownModeRunsDevelopment | src/utils/environment.ts:150-160 | an unknown mode runs the development handler |
| EnvUtils.GetEnvVar | src/utils/environment.ts:212-214 | the variable when truthy, else the default |
| EnvUtils.EmptyVarFallsBack | src/utils/environment.ts:213 | an empty variable falls back to the default |
| EnvUtils.GetAppInfo | src/utils/environment.ts:219-226 | name and version are the truthy variables or `ProductHot` and `1.0.0`, the description is the truthy variable or the default description, and the environment is the current one |
| ApiConfig.Defaults | src/services/api/config.ts:4-9 | timeout 10000, 3 retry attempts, 1000 ms delay, the base url from the environment or `https://api.example.com` |
| ApiConfig.Client | src/services/api/config.ts:12-18 | the client uses the configured base URL and timeout and has exactly one default header, `Content-Type: application/json` |
| ApiConfig.ClientRequestHeaders | src/services/api/config.ts:12-35 | a request with the client's default headers goes out as JSON with the time stamp, plus a bearer token exactly when one is stored |
| ApiConfig.RequestConfig.constructor | src/services/api/config.ts:22 | a request config with the given url and headers |
| ApiConfig.StampedHeadersProperties | src/services/api/config.ts:24-35 | `Authorization` becomes `Bearer <token>` when a non-empty token is stored and is left as it was otherwise; `X-Request-Time` is the current time in decimal; every other header is kept and no other is added |
| ApiConfig.StampDistinguishesInstants | src/services/api/config.ts:30-33 | different request times give different stamps |
| ApiConfig.OnRequest | src/services/api/config.ts:22-36 | with headers the config gets the stamped headers; without headers it passes unchanged; the config is forwarded |
| ApiConfig.OnRequestError | src/services/api/config.ts:37-40 | a request error settles as a rejection with the error unchanged |
| ApiConfig.OnResponse | src/services/api/config.ts:45-48 | a response settles as a resolution with the response unchanged |
| ApiConfig.OnResponseError | src/services/api/config.ts:49-64 | every error settles as a rejection with the error unchanged; a 401 also removes `auth_token` and redirects to `/login`; storage is otherwise unchanged |
| Browser.LocalStorage.GetItem | src/services/api/config.ts:24 | reading a key gives its stored value or nothing |
| Browser.LocalStorage.SetItem | src/theme/index.ts:293 | writing a key changes only that key |
| Browser.LocalStorage.RemoveItem | src/services/api/config.ts:55 | removing a key changes only that key |
| Browser.DocumentRoot.SetProperty | src/theme/index.ts:275 | setting a style property changes only that property |
| Browser.DocumentRoot.SetAttribute | src/theme/index.ts:285 | setting an attribute changes only that attribute |

## Left out

- I/O, timers and concurrency: awaiting, the network, `setTimeout` waits and the toast pop-ups are not modelled. The retry model returns the list of waits it would make instead of sleeping.
- `debounceMiddleware`, `throttleMiddleware` and `loggerMiddleware` (`src/middleware/index.ts:137-200`) are left out: they consist only of timers and console output.
- Console output is not modelled, except that `EnvUtils.Log` returns the line it would print.
- The `...args` of `log` are not modelled.
- `newsApi.getNews`, `newsApi.likeNews`, the `productInsightsApi` call and Axios are not part of this model. Their outcomes are inputs: `FetchOutcome`, `RequestOutcome`, the like request's success flag, and the list of responses the redirect interceptor observes.
- `Date.now()` and the request timestamps are parameters.
- Date strings are given as epoch milliseconds. `new Date(...)` parsing, an invalid date (`NaN`) in `formatTime`, and `toLocaleString('zh-CN')` are not modelled; the last is a parameter `fmt`.
- `Math.random()` in `transformNewsResponse` is a parameter `draw` giving a value in 0..999 per item.
- `encodeURIComponent` is a parameter of `Seo.OGImageChoice`.
- Lower-casing is ASCII only. JavaScript's full Unicode `toLowerCase` and UTF-16 code units are not modelled: strings are sequences of Dafny characters.
- Floating point: ratings, prices and review counts are `real`s, and there is no `NaN`.
- `Middleware.RetryMiddleware`: `maxRetries` is an integer; the source also accepts non-integer numbers.
- JavaScript objects with insertion order are association lists. The rule that integer-like keys come first in `Object.entries` is not modelled.
- The structured-data builders return typed records. `@context`, the JSON property order and serialisation are not modelled.
- Only `getApiBaseUrl` is modelled among the `EnvironmentUtils` accessors. The others are plain field reads of the selected config record, and `EnvConfig.ConfigTable` states those records.
- The Zustand `persist` wrapper (`src/store/index.ts:67` and `:217`, storage names at `:173` and `:237`) is not modelled. It saves the news and settings stores to `localStorage` and reloads them on start, so the initial values the store constructors ensure describe only a first load with empty storage.
- `useProductInsightsStore` (`src/store/index.ts:179-197`) is not modelled. It holds plain fields with one setter each, and the insights hook does not use it.
- `refreshData` in `useProductInsights.ts` calls the same fetch and is covered by `ProductInsights.InsightsState.Fetch`.
- `useAppStore`, which `useProductInsights.ts` imports its state and setters from, is not defined in `src/store/index.ts`. The model keeps that state (data, loading flag, error) in `ProductInsights.InsightsState`, and the setters become field assignments.
- The `onRead`, `onLike` and `onShare` callbacks of `NewsCard` belong to the parent component and are not modelled.
- Redirects to `/login` through `window.location.href` are returned as a value instead of navigating.
- i18n translation is represented by the message keys (`time.justNow` and the like), not the translated text.
- The filter-and-sort effect of `HomePage.tsx:246-268` and the rendering markup of all components are not modelled.
