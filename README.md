# Web crawler: per-host throttling and breadth-first crawl

This project models the core of `WebCrawler`, a breadth-first web crawler, and proves properties of that model.

A crawl of `download(url, depth)` works level by level:
- It drains a frontier queue and schedules each URL it has not seen before (`addedUrls`).
- It hands every scheduled URL whose host resolves to that host's `HostDownloader`.
- A `HostDownloader` lets at most `perHost` downloads of its host run at once and queues the rest in FIFO order.
- A download fetches the page. On every level but the last it extracts the page's links into the next frontier.
- The outcome of each URL goes into `downloaded` or into `errors`. A failed extraction goes into both.
- The queues are swapped between levels, and the crawl stops after `depth` levels.

The model has four modules:

- `HostDownloader` (`host_downloader.dfy`):
  - The per-host state machine as pure step functions (`ReadyStep`, `SubmitStep`, `CompleteStep`) on a `Host` value. Ghost bookkeeping records the tasks in flight, the dispatch order and the submission order.
  - Lemmas about arbitrary legal event sequences.
  - The mutable class `HostDownloader`. Its methods are proved to perform exactly those steps.
- `CrawlSpec` (`crawl_spec.dfy`):
  - The collaborators as inputs. `Web` holds two finite maps: the host of each well-formed URL, and the response of each page (download, then link extraction, each of which may fail).
  - The link graph's balls `Ball`/`Within`, and the level recurrence `LayerAt` that the crawl follows.
  - `Expected`, the set of downloaded URLs and the error map a crawl must produce.
  - Lemmas connecting these definitions.
- `Crawler` (`web_crawler.dfy`):
  - The classes `WebDownloader` and `WebCrawler`.
  - The level loop replaces the recursion of `bfs`. The inner `while` loop drains one frontier.
  - `WebCrawler.Download` is proved to return a duplicate-free `downloaded` list whose elements, together with `errors`, are exactly `Expected`.
- `Wrappers` (`wrappers.dfy`): the `Option` type.

The model is sequential:
- Each scheduled URL is submitted to its host, dispatched at once, run to completion and completed before the next URL is considered.
- All work of level d therefore finishes before level d + 1 starts. In the crawler's code the `Phaser` barrier waits for every download and extraction unit of level d. A unit gives its host slot back (WebCrawler.java:59-62) only after it has arrived, so that slot may still be taken when level d + 1 begins.
- Within one crawl every host in the model is idle between URLs, so each submission dispatches its own task at once (`Schedule` ensures this).
- Queueing behind a busy host is proved separately, over arbitrary event sequences, in the module `HostDownloader`.

In four places the model follows the code where a reader might expect otherwise:
- A level with an empty frontier does not end the crawl early. All `depth` levels still run, doing nothing.
- A page whose extraction fails is both in `downloaded` and in `errors`.
- `addedHosts` belongs to one crawl (a `WebDownloader` field), not to the crawler as a whole.
- An unchecked exception from the downloader or the extractor is swallowed. From the downloader, the URL then appears in neither collection. From the extractor, it appears in `downloaded` only, because `downloaded.add(url)` runs in the download unit whatever the extraction unit does later.

## Model

| member | source | states |
|---|---|---|
| HostDownloader.Init | java-solutions/ru/ifmo/rain/ivanova/crawler/WebCrawler.java:38-39 | a new host has an empty queue, nothing in flight and `readyToRun == perHost`, and satisfies the invariant |
| HostDownloader.ReadyStep | java-solutions/ru/ifmo/rain/ivanova/crawler/WebCrawler.java:45-54 | a task is dispatched iff a slot is free and the queue is non-empty; it is the head of the queue, it takes exactly one slot and joins the in-flight tasks; otherwise nothing changes |
| HostDownloader.SubmitStep | java-solutions/ru/ifmo/rain/ivanova/crawler/WebCrawler.java:67-70 | keeps the invariant; with a free slot the submitted task starts at once, without one the call only enqueues and dispatches nothing; at most one task starts |
| HostDownloader.CompleteStep | java-solutions/ru/ifmo/rain/ivanova/crawler/WebCrawler.java:55-63 | keeps the invariant; the finished task's slot is given back and the head of the queue, if any, starts in it, so at most one task starts |
| HostDownloader.Step | java-solutions/ru/ifmo/rain/ivanova/crawler/WebCrawler.java:37-72 | any event keeps the invariant, appends what it dispatched to the dispatch log and what it submitted to the submission log |
| HostDownloader.RunKeepsInvariant | java-solutions/ru/ifmo/rain/ivanova/crawler/WebCrawler.java:45-70 | over any legal event sequence the invariant holds (free + in flight == perHost, tasks start in submission order), and the sequence dispatches at most one task per event |
| HostDownloader.HostBounds | java-solutions/ru/ifmo/rain/ivanova/crawler/WebCrawler.java:39-63 | from a fresh host with `perHost >= 0`: `0 <= readyToRun <= perHost`, in-flight tasks never exceed `perHost`, `readyToRun + inFlight == perHost`, the started tasks are a prefix of the submitted ones, and `readyToRun == perHost` once nothing is in flight |
| HostDownloader.Drain | java-solutions/ru/ifmo/rain/ivanova/crawler/WebCrawler.java:58-61 | completing in-flight tasks alone empties the queue, frees every slot and dispatches every submitted task |
| HostDownloader.OneSlotScenario | java-solutions/ru/ifmo/rain/ivanova/crawler/WebCrawler.java:37-72 | with one slot, a second submission waits until the first task finishes and then starts |
| HostDownloader.HostDownloader.constructor | java-solutions/ru/ifmo/rain/ivanova/crawler/WebCrawler.java:38-39 | the object's state is `Init(perHost)` |
| HostDownloader.HostDownloader.Dispatch | java-solutions/ru/ifmo/rain/ivanova/crawler/WebCrawler.java:45-54 | `ready` followed by `run` performs exactly `ReadyStep` on the object's state |
| HostDownloader.HostDownloader.Submit | java-solutions/ru/ifmo/rain/ivanova/crawler/WebCrawler.java:67-70 | `submit` keeps the invariant and performs exactly `SubmitStep` |
| HostDownloader.HostDownloader.Complete | java-solutions/ru/ifmo/rain/ivanova/crawler/WebCrawler.java:59-62 | the wrapper's `finally` (`finish`, then `ready`) keeps the invariant and performs exactly `CompleteStep` |
| CrawlSpec.LayerIsBall | java-solutions/ru/ifmo/rain/ivanova/crawler/WebCrawler.java:132-147 | before level d < depth the crawl has scheduled exactly the URLs fewer than d links from the seed, and those plus the frontier are the URLs fewer than d + 1 links away |
| CrawlSpec.SeenIsWithin | java-solutions/ru/ifmo/rain/ivanova/crawler/WebCrawler.java:132-135 | when the level loop stops at `d == depth`, the scheduled URLs are those fewer than `depth` links away |
| CrawlSpec.LevelIsShell | java-solutions/ru/ifmo/rain/ivanova/crawler/WebCrawler.java:139-144 | the URLs first scheduled on level d are exactly those at link distance d |
| CrawlSpec.ShellSucc | java-solutions/ru/ifmo/rain/ivanova/crawler/WebCrawler.java:139-146 | for d > 0, the URLs fewer than d links away together with the links of those exactly d - 1 links away are the URLs fewer than d + 1 links away |
| CrawlSpec.ShellExtracts | java-solutions/ru/ifmo/rain/ivanova/crawler/WebCrawler.java:104 | a URL exactly d links away, with d < depth, lies in the extraction set of a depth-`depth` crawl iff `depth - d > 1` |
| CrawlSpec.LevelExtracts | java-solutions/ru/ifmo/rain/ivanova/crawler/WebCrawler.java:104 | a URL first scheduled on level d has its links extracted iff `depth - d > 1` |
| CrawlSpec.DepthGating | java-solutions/ru/ifmo/rain/ivanova/crawler/WebCrawler.java:104-146 | the links of a level-d URL with d + 1 < depth are all scheduled by level d + 1; the last level leaves an empty frontier |
| CrawlSpec.WithinIsShortPaths | java-solutions/ru/ifmo/rain/ivanova/crawler/WebCrawler.java:132-156 | a crawl of depth `depth` schedules `u` iff a chain of fewer than `depth` links leads from the seed to `u` |
| CrawlSpec.ScheduleOne | java-solutions/ru/ifmo/rain/ivanova/crawler/WebCrawler.java:93-122 | scheduling one more URL adds its own fetch result and error, and nothing else |
| CrawlSpec.Bookkeeping | java-solutions/ru/ifmo/rain/ivanova/crawler/WebCrawler.java:84-118 | a URL is downloaded iff reached and fetched; it is a malformed-URL error iff reached with no host; it is a download error iff its fetch fails; it is an extraction error iff it is on a level that extracts and its extraction fails; such a URL is also downloaded, every other error is not |
| CrawlSpec.ShallowCrawls | java-solutions/ru/ifmo/rain/ivanova/crawler/WebCrawler.java:153-155 | depth 0 downloads nothing and records nothing; depth 1 fetches only the seed and extracts nothing |
| Crawler.LayerExtracts | java-solutions/ru/ifmo/rain/ivanova/crawler/WebCrawler.java:104 | on every level below `depth`, each new URL is extracted exactly when the level extracts |
| Crawler.VisitStep | java-solutions/ru/ifmo/rain/ivanova/crawler/WebCrawler.java:141-142 | scheduling a new URL keeps `downloaded` duplicate-free and the record complete, and adds that URL's links to the next frontier exactly when its level extracts |
| Crawler.WebDownloader.constructor | java-solutions/ru/ifmo/rain/ivanova/crawler/WebCrawler.java:149-151 | a new crawl starts with empty collections and queues |
| Crawler.WebDownloader.GetHost | java-solutions/ru/ifmo/rain/ivanova/crawler/WebCrawler.java:84-91 | returns the URL's host; when there is none, records the malformed-URL error and leaves the map otherwise unchanged |
| Crawler.WebDownloader.Extract | java-solutions/ru/ifmo/rain/ivanova/crawler/WebCrawler.java:106-114 | successful extraction appends the links to the next frontier; an I/O failure records the error under the page's URL and appends nothing |
| Crawler.WebDownloader.RunTask | java-solutions/ru/ifmo/rain/ivanova/crawler/WebCrawler.java:102-121 | the URL is appended to `downloaded` iff its page is fetched; its error is `ErrorOf(url, depth - d > 1)`; its links join the next frontier only when `depth - d > 1` |
| Crawler.WebDownloader.HostFor | java-solutions/ru/ifmo/rain/ivanova/crawler/WebCrawler.java:96-99 | returns the `HostDownloader` already stored under the host if there is one, and otherwise a fresh one; `addedHosts` changes only by storing the result under the host, so one object serves each host and the other entries stay; the result is idle with the crawl's `perHost`, and every host stays idle |
| Crawler.WebDownloader.Schedule | java-solutions/ru/ifmo/rain/ivanova/crawler/WebCrawler.java:100-122 | submitting to an idle host dispatches exactly the URL's task (the host's dispatch log and submission log both gain `url`); after its completion the host is idle again with nothing left to start; `downloaded`, `errors` and the next frontier change by the URL's own outcome |
| Crawler.WebDownloader.ScheduleOn | java-solutions/ru/ifmo/rain/ivanova/crawler/WebCrawler.java:100-122 | `Schedule` on one of the crawl's hosts keeps every host idle, and changes `downloaded`, `errors` and the next frontier by the URL's own outcome |
| Crawler.WebDownloader.SubmitTo | java-solutions/ru/ifmo/rain/ivanova/crawler/WebCrawler.java:95-122 | for a URL whose host resolves, `downloaded`, `errors` and the next frontier change by exactly the URL's own outcome, and every host stays idle |
| Crawler.WebDownloader.Download | java-solutions/ru/ifmo/rain/ivanova/crawler/WebCrawler.java:93-124 | `downloaded`, `errors` and the next frontier change by exactly the URL's own outcome; a malformed URL is only recorded as an error |
| Crawler.WebDownloader.SwapQueues | java-solutions/ru/ifmo/rain/ivanova/crawler/WebCrawler.java:126-130 | the two queues are exchanged |
| Crawler.WebDownloader.Visit | java-solutions/ru/ifmo/rain/ivanova/crawler/WebCrawler.java:140-143 | a URL is added to `addedUrls` and downloaded only the first time; the record stays complete and duplicate-free |
| Crawler.WebDownloader.DrainNext | java-solutions/ru/ifmo/rain/ivanova/crawler/WebCrawler.java:139-143 | one turn of the drain loop takes the next queued URL and visits it; the URLs taken so far are scheduled, the rest stay queued, and the record and the next frontier stay consistent |
| Crawler.WebDownloader.DrainLevel | java-solutions/ru/ifmo/rain/ivanova/crawler/WebCrawler.java:139-145 | after draining level d, the scheduled set is the old set plus the frontier, and the next frontier is the links of the newly scheduled URLs if the level extracts, otherwise empty |
| Crawler.WebDownloader.BfsLevel | java-solutions/ru/ifmo/rain/ivanova/crawler/WebCrawler.java:136-145 | one level below `depth` moves the crawl from the state `LayerAt(d)` to `LayerAt(d + 1)`, with every host idle and the record complete |
| Crawler.WebDownloader.Bfs | java-solutions/ru/ifmo/rain/ivanova/crawler/WebCrawler.java:132-147 | levels d .. depth-1 follow `LayerAt`; at the end the scheduled URLs are those fewer than `depth` links from the seed, and the record is complete |
| Crawler.WebDownloader.Run | java-solutions/ru/ifmo/rain/ivanova/crawler/WebCrawler.java:153-156 | a crawl from the seed schedules exactly the URLs fewer than `depth` links away and records each one's outcome |
| Crawler.WebDownloader.GetResult | java-solutions/ru/ifmo/rain/ivanova/crawler/WebCrawler.java:158-160 | the result holds the crawl's own two collections |
| Crawler.WebCrawler.constructor | java-solutions/ru/ifmo/rain/ivanova/crawler/WebCrawler.java:30-35 | the crawler keeps its downloader and its per-host limit |
| Crawler.WebCrawler.Download | java-solutions/ru/ifmo/rain/ivanova/crawler/WebCrawler.java:165-169 | the result's `downloaded` has no duplicates, its elements are `Expected(url, depth).downloaded`, and its `errors` are `Expected(url, depth).errors` |

## Left out

- Concurrency is not modelled: the `downloaders` and `extractors` thread pools, `synchronized`, the concurrent collections, and the `Phaser` register/arrive protocol. The model runs every task to completion in turn, and the level barrier is the structure of the level loop. It follows that the model has no limit on the number of parties: a `Phaser` supports at most 65535 registered parties, so a level that registers more fetch and extraction units than that makes `register()` throw `IllegalStateException`. That limit comes from the JDK's `Phaser`, not from the crawler's own code.
- The unsynchronised lookup-then-insert on `addedHosts` is a race that only concurrent callers expose. It is not modelled.
- The model's hosts are idle at every level boundary; the program's may not be. A unit of level d can still hold its host slot after the barrier opens, and a submission of level d + 1 to that host then only enqueues until the late `finish`/`ready` dispatches it. The downloaded set and the error map are the same either way.
- Interleavings in which `finish` and `ready` of one task are separated by other threads are not modelled. `Complete` performs both as one step.
- `Downloader.download`, `Document.extractLinks` and `URLUtils.getHost` are library code that is not part of this model. They are inputs (`Web`).
- A URL with no entry in `Web`'s host map is malformed (`MalformedURLException`). A page with no entry in its response map fails to download (`IOException`).
- Exceptions are not kept as values. `errors` maps a URL to the kind of failure (`MalformedUrl`, `DownloadFailed`, `ExtractFailed`).
- Crawler.WebDownloader.Schedule and Crawler.WebDownloader.Download: in the sequential model no task ever waits in a host's queue during a crawl, so queueing is proved only in the module `HostDownloader`, over arbitrary event sequences.
- Crawler.WebCrawler.Download: the order of the `downloaded` list is not stated; concurrent completion makes it nondeterministic in the source. The contract states its set of elements and that it has no duplicates.
- Crawler.WebCrawler.Download requires `perHost > 0`. With no slot a host never dispatches. The source hangs as soon as it schedules a URL whose host resolves, because the party registered for it never arrives and the level barrier never opens. With `perHost <= 0` the source still returns when `depth == 0` or when the seed is malformed; the model does not cover those calls.
- `depth` is a natural number. With a negative depth the source schedules the seed on level 0 and then `bfs` calls itself until the stack overflows. The `StackOverflowError` is an `Error`, so nothing catches it and it escapes `download`.
- Stack exhaustion is not modelled. The tail call `bfs(d + 1)` is a loop in the model, so a crawl deep enough to overflow the source's stack completes in the model.
- `close()` (pool shutdown), `main` and `parseArgument` (command-line handling) are not modelled. `main` passes `depth` as the download-pool size, but pool sizes have no meaning in the sequential model.
- Each `WebDownloader` is created for one crawl, and its seed is given to the constructor as a ghost value rather than first seen in `run`.
