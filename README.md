# SpiderStack crawler: the per-page handler, modelled in Dafny

SpiderStack is a web crawler built on crawlee's `PlaywrightCrawler`. Crawlee
owns the request queue, deduplication, the page quota (`maxRequestsPerCrawl`),
concurrency and the same-domain link filter. The repository's own logic is
the `Crawler` class in `src/crawler.ts`, and this project models it:

- **Options** (`config.dfy`, module `CrawlerConfig`). The static defaults
  (`maxDepth` 2, `maxPages` 10, the CPU count as concurrency, 30 s,
  `domcontentloaded`, `./storage`, headless). Also the constructor's object
  spread `{ ...defaultOptions, ...options }`.
- **Metadata extraction** (`metadata.dfy`, module `Metadata`). Each `<meta>`
  element is three optional attributes. The key is `name || property`, so an
  empty string counts as absent. An element is stored only when its key and
  its `content` are both non-empty. A later element overwrites an earlier one
  with the same key. `MetaTags` is the fold that specifies the extraction, and
  the lemmas state its properties.
- **Request handling** (`crawler.dfy`, module `Crawling`). `Crawler` is a
  class. `crawledUrls` is a set field that the handler updates. A ghost
  `trace` field records, in order, the records pushed to the dataset and the
  `enqueueLinks` calls issued. `HandleRequest` does the following:
  - It takes the request's depth, defaulting to 0.
  - It adds the URL to `crawledUrls` before any awaited step.
  - It awaits the load state, the title and the metadata evaluation, then
    pushes `{url, title, depth, metadata}`.
  - It enqueues same-domain links tagged `depth + 1` only when
    `depth < maxDepth`.
  - A rejected await ends the handler (the source catches and logs it), and
    nothing further happens.
  - `HandleEffects` is the pure specification of the effects, and the lemmas
    beside it state the push/enqueue policy and the depth bound.
- `IsExternalUrl` compares the hostnames of the start URL and of a candidate
  URL. The hostname parser is a parameter, and `None` stands for `new URL`
  throwing.

Link filtering is crawlee's `same-domain` strategy. `isExternalUrl` is
defined but never called. A page's children are not enqueued once
`depth >= maxDepth`, but the page itself is always recorded.

## Model

| member | source | states |
|---|---|---|
| `CrawlerConfig.DefaultOptions` | src/crawler.ts:18-26 | The default options are maxDepth 2, maxPages 10, concurrency equal to the CPU count, timeout 30 s, `domcontentloaded`, `./storage` and headless, with no user agent and no verbose flag |
| `CrawlerConfig.Merge` | src/crawler.ts:34-37 | Each field supplied in the partial options replaces the default, and every field not supplied keeps its default |
| `CrawlerConfig.NoOptionsGivesDefaults` | src/crawler.ts:33-37 | Constructing without options yields exactly the default options |
| `CrawlerConfig.FullOptionsOverrideDefaults` | src/crawler.ts:33-37 | Supplying a complete options object, as the command line does, yields that object whatever the CPU count is |
| `Metadata.MetaTagsSnoc` | src/crawler.ts:124-130 | Extracting from the elements plus one more element is the extraction of the prefix followed by one visit of the new element |
| `Metadata.KeyedByNameElseProperty` | src/crawler.ts:125-128 | An element with non-empty content is stored under its `name` when `name` is non-empty, else under its `property` when that is non-empty, else it changes nothing |
| `Metadata.SkippedElementChangesNothing` | src/crawler.ts:126-129 | An element whose key or content is absent or empty leaves the map unchanged |
| `Metadata.MetaTagsKeys` | src/crawler.ts:123-131 | A key is in the map if and only if some element with that key and non-empty content exists |
| `Metadata.EntriesComeFromElements` | src/crawler.ts:123-131 | Every entry of the map is the content of some element with that key whose key and content are both non-empty |
| `Metadata.LastWins` | src/crawler.ts:124-128 | When several kept elements share a key, the map holds the content of the last of them in document order |
| `Metadata.AsWrittenDropsProtoKey` | src/crawler.ts:123-128 | Run on a plain JavaScript object, the extraction yields the intended map minus the `__proto__` key and nothing else |
| `Metadata.ProtoKeyCounterexample` | src/crawler.ts:128 | For `<meta name="__proto__" content="x">`, the object-based extraction yields an empty map, while the intended map has `__proto__` mapped to `x` |
| `Crawling.TransformRequest` | src/crawler.ts:138-141 | An enqueued link keeps its URL and carries depth `currentDepth + 1` |
| `Crawling.PushedIffStepsResolve` | src/crawler.ts:94-107 | A record is pushed exactly when the load state, the title, the metadata evaluation and the push all resolve. The record carries the request's URL and depth (0 when absent), the title and the extracted metadata, whatever the depth is |
| `Crawling.EnqueueIffBelowMaxDepth` | src/crawler.ts:109-114 | Links are enqueued exactly when the record was pushed and depth < maxDepth. The single enqueue comes after the push and tags children with depth + 1 |
| `Crawling.MaxDepthOptionGovernsEnqueue` | src/crawler.ts:34-37 | The `maxDepth` the handler compares against (src/crawler.ts:109) is the merged option: with `maxDepth` supplied, links are enqueued exactly when every awaited step resolves and the depth is below the supplied value; without it, exactly when the depth is below the default 2 |
| `Crawling.DepthStaysBounded` | src/crawler.ts:109-141 | Starting within the bound max(0, maxDepth), a handled request pushes a record within the bound, and every child it enqueues carries a depth ≤ maxDepth, which is the depth the transform gives every enqueued link, so the bound holds in every generation |
| `Crawling.Crawler.constructor` | src/crawler.ts:33-45 | The new crawler has the start URL, the options merged over the defaults, no crawled URLs and an empty trace |
| `Crawling.Crawler.GetCrawledUrls` | src/crawler.ts:47-49 | Returns the set of URLs handled so far |
| `Crawling.Crawler.IsExternalUrl` | src/crawler.ts:51-55 | Fails with the offending URL when the start URL or the candidate does not parse (the start URL is checked first). Otherwise it is true exactly when the two hostnames differ |
| `Crawling.SameHostnameIsInternal` | src/crawler.ts:51-55 | A URL on the start URL's host, and the start URL itself, are not external |
| `Crawling.Crawler.HandleRequest` | src/crawler.ts:84-119 | The request URL is added to `crawledUrls` whatever happens later, so the set only grows. The trace grows by exactly the specified effects: nothing after a rejection, the push, then the enqueue only below maxDepth |
| `Crawling.Crawler.ExtractMetadata` | src/crawler.ts:121-133 | The loop over the `<meta>` elements builds exactly `MetaTags` of them, and a rejected evaluation rejects |
| `Crawling.Crawler.EnqueueNextLinks` | src/crawler.ts:135-144 | Issues one same-domain `enqueueLinks` call. The child depth it records is the depth `TransformRequest` gives every link, `currentDepth + 1` |

## Findings

| source | as written | input that shows it | evidently intended | confidence | as-written member | corrected member |
|---|---|---|---|---|---|---|
| src/crawler.ts:123-128 | The map is a plain object `{}`, and `metaTags[name] = content` with `name` equal to `__proto__` calls the prototype setter, which ignores a string, so the entry is lost | `<meta name="__proto__" content="x">` | Every kept element is stored under its key, so the map holds `__proto__` mapped to `x` | not executed; certain for JavaScript's object semantics, rare in practice | `Metadata.MetaTagsAsWritten` | `Metadata.MetaTags` |

`Metadata.AsWrittenDropsProtoKey` and `Metadata.ProtoKeyCounterexample` prove
the discrepancy. The rest of the model (`ExtractMetadata`, `HandleEffects`)
uses the corrected `MetaTags`.

## Left out

- The frontier, deduplication, the page quota, concurrency, retries and same-domain link filtering. These are crawlee's, not this repository's. An enqueue is recorded only as the call issued, with its strategy and child depth.
- Playwright, the DOM and the dataset are foreign I/O. A `Page` says which awaited calls resolve and what they return. Whether the dataset accepts a push is a boolean parameter, and a rejected push records nothing.
- A rejected `enqueueLinks` call is caught and only logged. The model records the call as issued either way.
- URL parsing (`new URL(...).hostname`) is a parameter of `IsExternalUrl`.
- Record timestamps, every log line, the verbose log level and the `console.log` in the transform function.
- `playwrightOptions` and `playwrightConfig` are not modelled. They only pass settings to crawlee, such as a handler timeout of twice `timeoutSecs`, `maxRequestsPerCrawl` equal to `maxPages` and the user agent.
- `handleFailedRequest` only logs. `run` delegates the whole crawl to crawlee and returns `{ success: true, outputPath: outDir }`, so it is not modelled.
- Numbers are unbounded integers. A `NaN` option, which the command line's `parseInt` can produce, is not modelled; in the source a `NaN` maxDepth makes `depth >= maxDepth` false, so every page enqueues links.
- `CrawlerConfig.Merge`: a field explicitly set to `undefined` in the partial options is treated like an absent field. JavaScript's spread would copy the `undefined`. The command line passes `undefined` only for `userAgent` and `verbose`, whose defaults are absent anyway.
- `Crawling.Crawler.ExtractMetadata`: yields the corrected map `MetaTags`, which keeps a `__proto__` entry. The source's plain object loses that entry (see Findings). So `HandleRequest` and `HandleEffects` push a record with `__proto__` when the page has such an element, where the program pushes one without it. `Metadata.AsWrittenDropsProtoKey` states the exact difference: the as-written map is the corrected map minus the `__proto__` key.
- `Crawling.TransformRequest`: the transform replaces the whole of a child's user data, but the model's request carries only the depth.
- `Crawling.Crawler.GetCrawledUrls`: returns the set as a value. The source returns the live `Set`, which a caller could mutate.
- The root `crawler.ts`, `crawl.ts`, `src/crawl.ts` (command-line parsing) and the test file are not part of this model.
