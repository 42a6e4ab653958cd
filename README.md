# Sitemap crawler: a verified model of the per-page step

The crawler builds a sitemap of a website. It fetches a seed page, walks the
page's HTML tokens, and sends every in-scope link it finds to a sitemap channel.
While its depth budget lasts, it starts a goroutine per link to crawl that link.
`main` collects what is sent into a map keyed by location. It then flattens the
map into the `urlset` list.

The page step exists in two copies:
- `CreateSitemap` in `internal/sitemap/sitemap.go`. Each child fetches its own page.
- `createSitemap` in `main.go`. Each task fetches a link's page before it starts
  the child, and abandons the anchor (`break`) when that fetch fails.

The model treats each copy as imperative code proved against a pure fold:
- `Page.Tokens` folds over the token stream. Its state is the two mutable locals
  (`baseElement` and the remaining depth) plus a trace of events: links sent,
  errors sent, requests made and tasks started.
- A flag `Variant` (`Package` or `MainCopy`) selects the copy. Only the
  per-link step differs between them.
- The methods `Sitemap.CreateSitemap` and `Program.CreateSitemap` run the Go
  loop over a shared `Page.CrawlState` object. That object holds the WaitGroup
  counter and the event trace. Each method is proved to append exactly the
  fold's trace.
- Properties of the fold are proved as lemmas:
  - the depth countdown;
  - the order of events;
  - the last base element wins;
  - a failed fetch ends the anchor.
  A generic lemma, `Invariants.TokensPreserve`, lifts per-step invariants to a
  whole page.
- `url.Parse` and `http.Get` are the function fields of `Web.Net`. Every lemma
  quantifies over them. A parsed URL is the record `(scheme, host, path, text)`,
  where `text` is what `String()` renders.

Modules:
- `Web`: tokens, attributes, URLs, and the parser and fetcher.
- `Links`: the href filter, the effective base and the link.
- `Page`: the fold, the shared state and the `<base>` loop.
- `Invariants`: the countdown and order invariants.
- `BaseElement`: the last-wins rule.
- `Sitemap`: the package copy.
- `Program`: the copy in main.go, plus `main`.
- `Aggregate`: the map and the flatten.

Where the code departs from the usual rules, the model follows the code:
- The last `<base href>` that parses wins. The HTML Living Standard, section
  4.2.3, takes the first `<base>` element.
- A relative link is `base + href` by string concatenation. The resolution of
  RFC 3986 section 5.2 is not used, so `/p` under `https://cdn.example/` becomes
  `https://cdn.example//p`.
- The depth is decremented in place, once per child. The k-th child of a page
  gets `maxDepth - 1 - k`.

## Model

| member | source | states |
|---|---|---|
| Links.EffectiveBase | internal/sitemap/sitemap.go:70-74 | the base is the base element when one is set; otherwise it is the page's scheme, then `://`, then the page's host |
| Links.Discover | internal/sitemap/sitemap.go:65-87 | a link is produced iff the attribute is a non-empty `href` that is not `/`, not a fragment, not the page's own path, and (when it starts with `http`) starts with the effective base. A relative href gives `base + href`. An in-scope absolute href gives the parser's canonical string, or `base + href` when it does not parse. Every link is in scope. |
| Links.DoubleSlashUnderBaseElement | internal/sitemap/sitemap.go:76 | `/p` under the base element `https://cdn.example/` yields `https://cdn.example//p` (plain concatenation) |
| Page.Spawn | internal/sitemap/sitemap.go:97-101 | while depth lasts, the depth drops by one and exactly one child task is added, with the decremented depth and the parsed link; at zero or below the state is unchanged. The base element is kept and events are only appended. |
| Page.Follow | internal/sitemap/sitemap.go:65-101 | one `<a>` attribute keeps the base element and only appends events. The depth drops by at most one and never below zero. The attribute loop is left only in main.go's copy, only after a fetch error is reported, and then no child is started. |
| Page.Fetch | main.go:158-168 | the child's page is requested first. The loop is left iff the request fails. A failure reports a fetch error for that URL, keeps the depth and starts no child. A success starts the child as `Spawn` does. |
| Page.Anchor | internal/sitemap/sitemap.go:63-104 | the attribute loop of an `<a>` tag keeps the base element, only appends events, and never raises the depth or takes a non-negative depth below zero |
| Page.BaseStep | internal/sitemap/sitemap.go:108-118 | one `<base>` attribute keeps the depth and only appends error reports. An `href` that fails to parse is reported. The base element changes only to the text of an `href` that parses. |
| Page.Base | internal/sitemap/sitemap.go:106-119 | the attribute loop of a `<base>` tag keeps the depth and only appends error reports, so it starts no task and sends no link; which reports it appends is `BaseElement.BaseReports` |
| Page.TokenStep | internal/sitemap/sitemap.go:54-120 | a token other than an `a` or `base` start tag changes nothing. An `a` tag keeps the base element and a `base` tag keeps the depth. Events are only appended, and the depth never rises or goes below zero from a non-negative start. |
| Page.Tokens | internal/sitemap/sitemap.go:52-122 | the token loop only appends events, never raises the depth, and never takes a non-negative depth below zero |
| Sitemap.Run | internal/sitemap/sitemap.go:29-125 | (corrected step; see ## Findings) a nil URL or zero depth does nothing. Otherwise the page's request is the first event. At most `max(maxDepth, 0)` tasks are started. |
| Program.Run | main.go:101-192 | zero depth does nothing, and at most `max(maxDepth, 0)` tasks are started |
| BaseElement.BaseReports | internal/sitemap/sitemap.go:106-119 | the `<base>` attribute loop appends exactly one parse error per `href` that fails to parse, in attribute order, and nothing else |
| Page.BaseTag | internal/sitemap/sitemap.go:106-119 | the `<base>` attribute loop leaves the base element and events the fold's `Base` gives, so (by `BaseElement.BaseReports`) it reports each href that fails to parse, starts no task and leaves the counter alone |
| Page.SpawnChild | internal/sitemap/sitemap.go:97-101 | while depth lasts, the depth is decremented, one `Add` is counted and a child task with the decremented depth is started; at zero depth nothing changes (the fold's `Spawn`) |
| Sitemap.CreateSitemap | internal/sitemap/sitemap.go:29-125 | (corrected step; see ## Findings) a nil URL or zero depth changes nothing, fetches nothing and starts nothing. Otherwise the trace grows by exactly the fold's events, the tasks returned are the ones started, and the counter ends at one `Add` per task minus the single `Done` of whichever exit is taken. |
| Sitemap.AnchorTag | internal/sitemap/sitemap.go:63-104 | the `<a>` attribute loop performs exactly the fold's `Anchor` |
| Sitemap.Link | internal/sitemap/sitemap.go:65-101 | one attribute: the link is sent, then parsed again (a parse error is reported), then a child task is started with the decremented depth while depth lasts. Each start is counted by `Add`. |
| Sitemap.ChildDepths | internal/sitemap/sitemap.go:97-101 | the k-th child started gets depth `maxDepth - 1 - k`: no child gets a negative depth, and at most `maxDepth` children are started |
| Sitemap.TraceOrdered | internal/sitemap/sitemap.go:40-101 | the page request is the first event. A child follows the sent link it was parsed from. A parse error names a string the parser rejects. A fetch error follows the failed request. |
| Sitemap.CrawlFrom | internal/sitemap/sitemap.go:29-125 | (corrected step; see ## Findings) running a task and then all the tasks it starts, depth first, appends exactly `CrawlTrace`: the task's own events, then each child's crawl in the order the children were started. A nil URL or zero depth records nothing. The WaitGroup counter comes back to where it was before the task was counted, so `Wait` returns. |
| Sitemap.RunAsWritten | internal/sitemap/sitemap.go:40-46 | the page step as written: it panics exactly when the page is fetched and the fetch fails without a response (a transport error). A redirect failure, which comes with a response, is reported. Every other input behaves as the corrected step. |
| Sitemap.FailedFetchPanics | internal/sitemap/sitemap.go:40-46 | for any page whose request fails without a response, the code as written panics, where the corrected step reports a fetch error |
| Sitemap.FetchFailureReported | internal/sitemap/sitemap.go:40-46 | corrected: a task reports a fetch error for its own page exactly when fetching that page fails |
| Invariants.TokensPreserve | internal/sitemap/sitemap.go:52-122 | any property of the state that each anchor attribute and each base attribute keep holds after the whole token loop |
| Invariants.RunCountdown | main.go:164-168 | over a whole page, the children get depths `maxDepth-1, maxDepth-2, …`, all non-negative, and at most `max(maxDepth, 0)` of them (either copy) |
| Invariants.RunOrdered | main.go:150-168 | over a whole page, every event is justified by the one before it (see `Justified`). This holds in either copy. |
| BaseElement.BaseLastWins | main.go:173-186 | after a `<base>` tag the base element is the text of its last href that parses, or the previous base element when none parses; the depth is unchanged |
| BaseElement.TokensLastWins | internal/sitemap/sitemap.go:106-119 | after any prefix of the page, the base element is the text of the last parsing `<base href>` in it (the empty string when there is none) |
| BaseElement.AnchorSeesEarlierBases | internal/sitemap/sitemap.go:48-119 | an anchor is processed with the base element left by the base hrefs before it, and only those. The rest of the page continues from the state after the anchor. |
| Program.CreateSitemap | main.go:101-192 | zero depth changes nothing and starts nothing. Otherwise the trace grows by exactly the fold's events, the tasks returned are the ones started, and the counter ends at one `Add` per task minus one `Done`. |
| Program.AnchorTag | main.go:124-171 | the `<a>` attribute loop performs exactly the fold's `Anchor`, including leaving the loop early on a failed fetch |
| Program.Link | main.go:126-168 | one attribute: the link is sent, parsed again (a parse error is reported) and its page fetched; the loop is left on a fetch failure |
| Program.FetchChild | main.go:158-168 | the child's page is requested. A failure is reported and stops the anchor, with no child and no decrement. Otherwise, while depth lasts, a child is started with the decremented depth. |
| Program.ChildDepths | main.go:164-168 | the k-th child gets depth `maxDepth - 1 - k`, none gets a negative depth, at most `maxDepth` are started, and each child's page was fetched successfully |
| Program.TraceOrdered | main.go:150-168 | every request follows the link it fetches. Every child follows its link and the successful request for it. A fetch error follows its failed request. |
| Program.FollowFetchError | main.go:158-162 | one attribute only appends events. It stops the anchor exactly by ending in a fetch error, and it adds no other fetch error. |
| Program.FetchErrorEndsAnchor | main.go:158-162 | after a fetch error, no further attribute of that anchor is processed: a fetch error can only be the anchor's last event |
| Program.CrawlFrom | main.go:101-192 | the depth-first schedule of a task and all tasks it starts appends exactly `CrawlTrace`. That is the task's own events, then each child's crawl, each child starting from the response fetched for it. Zero depth records nothing. The counter returns to where it was before the task was counted. |
| Program.Generate | main.go:43-93 | a seed that does not parse or cannot be fetched is fatal, and then nothing is crawled. Otherwise the recorded events are exactly the depth-first crawl (`CrawlTrace`) from the seed's page and its response. The sitemap lists each location found in that crawl exactly once and nothing else, and is empty when `maxDepth` is 0. |
| Aggregate.Sent | main.go:58-62 | a location is among the URLs sent iff a task found it |
| Aggregate.Collect | main.go:58-62 | the map holds a key for exactly the locations received, each stored under its own location |
| Aggregate.ReinsertUnchanged | main.go:61 | receiving a location already in the map leaves the map unchanged |
| Aggregate.Flatten | main.go:91-93 | the list has one entry per map entry, contains exactly the map's locations, and has no location twice |
| Aggregate.Assemble | main.go:53-93 | the list has no location twice, has a location iff it was received, holds only received URLs, and is empty when nothing was received |

## Left out

- HTTP I/O is left out. `http.Get` is a function from URL strings to either a failure or a token stream. A failure records only whether a response came with the error (a redirect failure) or not (a transport error), and the same URL always gives the same answer. Closing response bodies and the body leaked when a fetched child is not started (main.go:158-168) are not modelled.
- The tokenizer of golang.org/x/net/html and the parser of net/url are not modelled. A page is a sequence of abstract tokens, and `url.Parse` is an arbitrary partial function. Error values are reduced to the string that failed.
- Goroutines, channels and WaitGroup blocking are replaced by a sequential depth-first schedule (`CrawlFrom`). The model does not capture interleavings, the order in which the aggregator receives sends, or `Wait` blocking. Counter balance is proved for that schedule.
- `WriteSitemapToFile` and `writeSitemapToFile` are left out. They are file I/O and XML encoding, with no logic of their own.
- cmd/main.go is not part of this model. It wires flags to the same aggregation.
- `runtime.GOMAXPROCS`, the flags and the `fmt` console output are not modelled.
- Aggregate.Flatten: Go's map iteration order is random, so the model leaves the order open and states only contents, length and distinctness.

## Findings

| source | as written | input that shows it | evidently intended | confidence | as-written member | corrected member |
|---|---|---|---|---|---|---|
| internal/sitemap/sitemap.go:40-46 | `defer response.Body.Close()` evaluates `response.Body` before `err` is checked, and `http.Get` returns a nil response with a transport error | any page URL whose request fails without a response, for example one whose host does not resolve | report the error on the error channel, call `Done` and return | high; not executed | Sitemap.FailedFetchPanics | Sitemap.FetchFailureReported |
