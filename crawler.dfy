/**
 * The per-page work of the crawler: the request handler that the browser
 * crawler calls once per dequeued request, the metadata extraction it
 * awaits, the link enqueue it issues below the depth limit, and the
 * hostname comparison of `isExternalUrl`.
 *
 * The browser page, the dataset and the link enqueuer are foreign. A page is
 * an input that says which of the awaited calls resolve; what the handler
 * hands to the dataset and to the enqueuer is appended, in order, to the
 * ghost `trace` of the crawler.
 */
module Crawling {
  import opened Wrappers
  import opened CrawlerConfig
  import opened Metadata

  /** The settled state of an awaited promise. */
  datatype Awaited<T> = Resolved(value: T) | Rejected

  /** A request as the handler sees it: its URL and the `depth` in its user data, if any. */
  datatype Request = Request(url: string, depth: Option<nat>)

  /**
   * A rendered page: whether `waitForLoadState` reaches each lifecycle state,
   * what `title()` settles to, and what `evaluate` over the document's
   * `<meta>` elements settles to.
   */
  datatype Page = Page(
    reachesState: WaitUntil -> bool,
    title: Awaited<string>,
    metas: Awaited<seq<MetaElement>>)

  /** The record pushed to the dataset (the timestamp is not modelled). */
  datatype PageRecord = PageRecord(url: string, title: string, depth: nat, metadata: map<string, string>)

  /** The only enqueue strategy the handler uses. */
  datatype Strategy = SameDomain

  /** An observable side effect of handling a request. */
  datatype Effect =
    | Pushed(record: PageRecord)
    | EnqueuedLinks(strategy: Strategy, childDepth: nat)

  /** `userData: { depth = 0 }`: a request without a depth is at depth 0. */
  function RequestDepth(request: Request): nat {
    request.depth.GetOr(0)
  }

  /**
   * The `transformRequestFunction` applied to every enqueued link: its user
   * data is replaced by the child depth.
   */
  function TransformRequest(link: Request, currentDepth: nat): (child: Request)
    ensures child.url == link.url
    ensures child.depth.Some? && RequestDepth(child) == currentDepth + 1
  {
    Request(link.url, Some(currentDepth + 1))
  }

  /** Every awaited step before and including the dataset push resolves. */
  predicate StepsResolve(page: Page, waitUntil: WaitUntil, datasetAccepts: bool) {
    page.reachesState(waitUntil) && page.title.Resolved? && page.metas.Resolved? && datasetAccepts
  }

  /** The side effects one request produces, in order (the handler's specification). */
  function HandleEffects(request: Request, page: Page, options: CrawlerOptions, datasetAccepts: bool): seq<Effect> {
    if !StepsResolve(page, options.waitUntil, datasetAccepts) then []
    else
      var depth := RequestDepth(request);
      var record := PageRecord(request.url, page.title.value, depth, MetaTags(page.metas.value));
      [Pushed(record)] + if depth < options.maxDepth then [EnqueuedLinks(SameDomain, depth + 1)] else []
  }

  /**
   * A record is pushed exactly when every awaited step up to the push
   * resolves; it carries the request's URL and depth, the page title and the
   * extracted metadata, whatever the depth is.
   */
  lemma PushedIffStepsResolve(request: Request, page: Page, options: CrawlerOptions, datasetAccepts: bool)
    ensures var effects := HandleEffects(request, page, options, datasetAccepts);
            (|effects| > 0 <==> StepsResolve(page, options.waitUntil, datasetAccepts)) &&
            (|effects| > 0 ==>
               effects[0] == Pushed(PageRecord(request.url, page.title.value, RequestDepth(request),
                                               MetaTags(page.metas.value))))
  {
  }

  /**
   * Links are enqueued exactly when the push happened and the depth is below
   * the maximum; the enqueue comes after the push and tags children with the
   * next depth.
   */
  lemma EnqueueIffBelowMaxDepth(request: Request, page: Page, options: CrawlerOptions, datasetAccepts: bool)
    ensures var effects := HandleEffects(request, page, options, datasetAccepts);
            ((exists i :: 0 <= i < |effects| && effects[i].EnqueuedLinks?) <==>
               StepsResolve(page, options.waitUntil, datasetAccepts) && RequestDepth(request) < options.maxDepth) &&
            (forall i :: 0 <= i < |effects| && effects[i].EnqueuedLinks? ==>
               i == 1 && effects[0].Pushed? &&
               effects[i] == EnqueuedLinks(SameDomain, RequestDepth(request) + 1))
  {
    var effects := HandleEffects(request, page, options, datasetAccepts);
    if StepsResolve(page, options.waitUntil, datasetAccepts) && RequestDepth(request) < options.maxDepth {
      assert effects[1].EnqueuedLinks?;
    }
  }

  function Max(a: int, b: int): int {
    if a < b then b else a
  }

  /**
   * The depth bound: a request whose depth is within the bound (the seed has
   * depth 0) pushes a record within the bound, and every child the handler
   * enqueues carries a depth within the bound too, so the bound holds for
   * every generation of children.
   */
  lemma DepthStaysBounded(request: Request, page: Page, options: CrawlerOptions, datasetAccepts: bool)
    requires RequestDepth(request) <= Max(0, options.maxDepth)
    ensures forall e :: e in HandleEffects(request, page, options, datasetAccepts) ==>
              (e.Pushed? ==> e.record.depth <= Max(0, options.maxDepth)) &&
              (e.EnqueuedLinks? ==>
                 e.childDepth <= options.maxDepth &&
                 forall link :: RequestDepth(TransformRequest(link, RequestDepth(request))) == e.childDepth)
  {
  }

  /**
   * The `maxDepth` the handler compares against is the supplied option when
   * there is one and the default 2 otherwise.
   */
  lemma MaxDepthOptionGovernsEnqueue(cpuCount: nat, supplied: PartialOptions, request: Request,
                                     page: Page, datasetAccepts: bool)
    ensures var options := Merge(DefaultOptions(cpuCount), supplied);
            var effects := HandleEffects(request, page, options, datasetAccepts);
            var bound := if supplied.maxDepth.Some? then supplied.maxDepth.value else 2;
            (|effects| == 2 <==> StepsResolve(page, options.waitUntil, datasetAccepts) && RequestDepth(request) < bound)
  {
  }

  class Crawler {
    const url: string
    const options: CrawlerOptions
    var crawledUrls: set<string>
    ghost var trace: seq<Effect>

    /** `options` is spread over the defaults; the default concurrency is `cpuCount`. */
    constructor (url: string, options: PartialOptions, cpuCount: nat)
      ensures this.url == url
      ensures this.options == Merge(DefaultOptions(cpuCount), options)
      ensures crawledUrls == {} && trace == []
    {
      this.options := Merge(DefaultOptions(cpuCount), options);
      this.url := url;
      crawledUrls := {};
      trace := [];
    }

    /** The URLs of every request handled so far. */
    method GetCrawledUrls() returns (urls: set<string>)
      ensures urls == crawledUrls
    {
      urls := crawledUrls;
    }

    /**
     * Whether `urlToCheck` lies on another host than the start URL;
     * `hostname` is URL parsing, `None` when `new URL` throws (the start URL
     * is parsed first).
     */
    function IsExternalUrl(urlToCheck: string, hostname: string -> Option<string>): (r: Result<bool, string>)
      ensures hostname(url).None? ==> r == Failure(url)
      ensures hostname(url).Some? && hostname(urlToCheck).None? ==> r == Failure(urlToCheck)
      ensures r.Success? <==> hostname(url).Some? && hostname(urlToCheck).Some?
      ensures r.Success? ==> (r.value <==> hostname(url).value != hostname(urlToCheck).value)
    {
      var baseHostname := hostname(url);
      if baseHostname.None? then Failure(url)
      else
        var urlHostname := hostname(urlToCheck);
        if urlHostname.None? then Failure(urlToCheck)
        else Success(baseHostname.value != urlHostname.value)
    }

    /**
     * The request handler. The URL is recorded before any awaited step, so
     * it is recorded even when a later step rejects; a rejection ends the
     * handler (the error is caught and logged) with no further effect.
     */
    method HandleRequest(request: Request, page: Page, datasetAccepts: bool)
      modifies this
      ensures crawledUrls == old(crawledUrls) + {request.url}
      ensures trace == old(trace) + HandleEffects(request, page, options, datasetAccepts)
    {
      var depth := if request.depth.Some? then request.depth.value else 0;
      crawledUrls := crawledUrls + {request.url};

      if !page.reachesState(options.waitUntil) {
        return;
      }
      if page.title.Rejected? {
        return;
      }
      var title := page.title.value;
      var metadata := ExtractMetadata(page);
      if metadata.Rejected? {
        return;
      }
      if !datasetAccepts {
        return;
      }
      trace := trace + [Pushed(PageRecord(request.url, title, depth, metadata.value))];

      if depth >= options.maxDepth {
        return;
      }
      EnqueueNextLinks(depth);
    }

    /** The `evaluate` over the document's `<meta>` elements. */
    method ExtractMetadata(page: Page) returns (result: Awaited<map<string, string>>)
      ensures page.metas.Rejected? ==> result.Rejected?
      ensures page.metas.Resolved? ==> result == Resolved(MetaTags(page.metas.value))
    {
      if page.metas.Rejected? {
        return Rejected;
      }
      var elements := page.metas.value;
      var metaTags: map<string, string> := map[];
      for i := 0 to |elements|
        invariant metaTags == MetaTags(elements[..i])
      {
        var meta := elements[i];
        var name := meta.name;
        if !Truthy(name) {
          name := meta.property;
        }
        var content := meta.content;
        if Truthy(name) && Truthy(content) {
          metaTags := metaTags[name.value := content.value];
        }
        assert elements[..i + 1] == elements[..i] + [meta];
        MetaTagsSnoc(elements[..i], meta);
      }
      assert elements[..|elements|] == elements;
      return Resolved(metaTags);
    }

    /** `enqueueLinks` with the same-domain strategy, children tagged one level deeper. */
    method EnqueueNextLinks(currentDepth: nat)
      modifies this`trace
      ensures trace == old(trace) + [EnqueuedLinks(SameDomain, currentDepth + 1)]
      ensures forall link :: RequestDepth(TransformRequest(link, currentDepth)) == trace[|trace| - 1].childDepth
    {
      trace := trace + [EnqueuedLinks(SameDomain, currentDepth + 1)];
    }
  }

  /** The start URL is never external to its own crawl. */
  lemma SameHostnameIsInternal(c: Crawler, u: string, hostname: string -> Option<string>)
    requires hostname(c.url).Some? && hostname(u) == hostname(c.url)
    ensures c.IsExternalUrl(u, hostname) == Success(false)
    ensures c.IsExternalUrl(c.url, hostname) == Success(false)
  {
  }
}
