/**
 * The crawler itself (`WebCrawler`, its inner class `WebDownloader` and
 * `WebCrawler.download`), run sequentially.
 *
 * A crawl keeps two frontier queues that are swapped at each level, a global
 * set `addedUrls` of scheduled URLs, one `HostDownloader` per host (created on
 * first use), and the `downloaded` list and `errors` map it returns.  Every
 * scheduled URL whose host resolves is submitted to its host; the download
 * task then fetches the page, extracts its links into the next frontier when
 * `depth - d > 1`, and records the outcome.  Here each task runs to completion
 * as soon as its host dispatches it, so all work of level d is done before
 * level d + 1 starts.  The crawler's code waits at its level barrier for every
 * download and extraction unit of level d; a unit returns its host slot only
 * after it arrives, so a host may still be busy when level d + 1 begins.
 */
module Crawler {
  import opened Wrappers
  import opened HostDownloader
  import opened CrawlSpec

  predicate NoDuplicates<T(==)>(s: seq<T>) {
    forall i, j | 0 <= i < j < |s| :: s[i] != s[j]
  }

  function Elems<T>(s: seq<T>): set<T> {
    set x | x in s
  }

  lemma ElemsAppend<T>(a: seq<T>, b: seq<T>)
    ensures Elems(a + b) == Elems(a) + Elems(b)
  {
  }

  /** `downloaded` lists, once each, the scheduled URLs that were fetched, and
      `errors` holds the outcome of every scheduled URL that failed. */
  ghost predicate RecordedFor(web: Web, seed: Url, depth: nat,
                              downloaded: seq<Url>, errors: map<Url, Error>, added: set<Url>)
  {
    && NoDuplicates(downloaded)
    && Elems(downloaded) == FetchedAmong(web, added)
    && errors == ErrorsAmong(web, added, Within(web, seed, ExtractingLevels(depth)))
  }

  /** Scheduling a new URL `u` of level d keeps the record complete, and its
      links (when level d extracts) join the next frontier. */
  lemma VisitStep(web: Web, seed: Url, depth: nat, d: nat, seen0: set<Url>, added: set<Url>, u: Url,
                  downloaded: seq<Url>, errors: map<Url, Error>, queued: seq<Url>,
                  downloaded': seq<Url>, errors': map<Url, Error>, queued': seq<Url>)
    requires RecordedFor(web, seed, depth, downloaded, errors, added)
    requires (u in Within(web, seed, ExtractingLevels(depth))) == (depth - d > 1)
    requires seen0 <= added && u !in added
    requires Elems(queued) == (if depth - d > 1 then Succ(web, added - seen0) else {})
    requires downloaded' == downloaded + (if Fetches(web, u) then [u] else [])
    requires errors' == Record(errors, u, ErrorOf(web, u, depth - d > 1))
    requires queued' == queued + (if depth - d > 1 then Out(web, u) else [])
    ensures RecordedFor(web, seed, depth, downloaded', errors', added + {u})
    ensures Elems(queued') == (if depth - d > 1 then Succ(web, (added + {u}) - seen0) else {})
  {
    ScheduleOne(web, added, Within(web, seed, ExtractingLevels(depth)), u);
    SuccAddOne(web, added - seen0, u);
    assert (added + {u}) - seen0 == (added - seen0) + {u};
    ElemsAppend(queued, if depth - d > 1 then Out(web, u) else []);
    ElemsAppend(downloaded, if Fetches(web, u) then [u] else []);
  }

  /** The URLs of `frontier` not in `seen` are exactly those whose links are
      extracted, when level d extracts (`depth - d > 1`), and none otherwise. */
  ghost predicate ExtractsAt(web: Web, seed: Url, depth: nat, d: nat, seen: set<Url>, frontier: set<Url>)
  {
    forall u | u in frontier - seen :: (u in Within(web, seed, ExtractingLevels(depth))) == (depth - d > 1)
  }

  /** Every new URL of a level below `depth` is extracted exactly when the
      level extracts. */
  lemma LayerExtracts(web: Web, seed: Url, depth: nat, d: nat)
    requires d < depth
    ensures ExtractsAt(web, seed, depth, d, LayerAt(web, seed, depth, d).seen, LayerAt(web, seed, depth, d).frontier)
  {
    forall u | u in LayerAt(web, seed, depth, d).frontier - LayerAt(web, seed, depth, d).seen
      ensures (u in Within(web, seed, ExtractingLevels(depth))) == (depth - d > 1)
    {
      LevelExtracts(web, seed, depth, d, u);
    }
  }

  /** The crawler's `Result`: the downloaded list and the error map. */
  datatype Result = Result(downloaded: seq<Url>, errors: map<Url, Error>)

  class WebDownloader {
    const web: Web
    const perHost: int
    const depth: nat
    var downloaded: seq<Url>
    var errors: map<Url, Error>
    var addedUrls: set<Url>
    var addedHosts: map<HostName, HostDownloader<Url>>
    /** The `HostDownloader` objects this crawl has created. */
    ghost var hostRepr: set<HostDownloader<Url>>
    var queueToTake: seq<Url>
    var queueToAdd: seq<Url>
    /** The URL `run` is given: a `WebDownloader` serves one crawl. */
    ghost const seed: Url

    /** Between two URLs no host has queued or in-flight work. */
    ghost predicate HostsIdle()
      reads this`addedHosts, this`hostRepr, hostRepr
    {
      && (forall h | h in addedHosts :: addedHosts[h] in hostRepr)
      && (forall o | o in hostRepr :: o.Quiet() && o.perHost == perHost)
    }

    /** The outcome of every scheduled URL is recorded, once. */
    ghost predicate Recorded()
      reads this`downloaded, this`errors, this`addedUrls
    {
      RecordedFor(web, seed, depth, downloaded, errors, addedUrls)
    }

    constructor (web: Web, perHost: int, depth: nat, ghost seed: Url)
      ensures this.web == web && this.perHost == perHost && this.depth == depth && this.seed == seed
      ensures downloaded == [] && errors == map[] && addedUrls == {} && addedHosts == map[] && hostRepr == {}
      ensures queueToTake == [] && queueToAdd == []
    {
      this.web := web;
      this.perHost := perHost;
      this.depth := depth;
      this.seed := seed;
      downloaded := [];
      errors := map[];
      addedUrls := {};
      addedHosts := map[];
      hostRepr := {};
      queueToTake := [];
      queueToAdd := [];
    }

    /** `getHost`: a malformed URL is recorded as an error and yields no host. */
    method GetHost(url: Url) returns (host: Option<HostName>)
      modifies this`errors
      ensures host == HostOf(web, url)
      ensures errors == Record(old(errors), url, if host.None? then Some(MalformedUrl) else None)
    {
      host := HostOf(web, url);
      if host.None? {
        errors := errors[url := MalformedUrl];
      }
    }

    /** The extraction unit: on success its links go to the next frontier, on
        an IOException the error is recorded under the page's URL, and an
        unchecked exception ends in the extractor pool's future. */
    method Extract(url: Url, extraction: Extraction)
      modifies this`queueToAdd, this`errors
      ensures queueToAdd == old(queueToAdd) + (if extraction.Links? then extraction.urls else [])
      ensures errors == Record(old(errors), url, if extraction.ExtractIOError? then Some(ExtractFailed) else None)
    {
      match extraction
      case Links(urls) =>
        queueToAdd := queueToAdd + urls;
      case ExtractIOError =>
        errors := errors[url := ExtractFailed];
      case ExtractUnchecked =>
    }

    /** The download unit submitted to the URL's host: fetch the page, extract
        its links when `depth - d > 1`, then add the URL to `downloaded`; an
        IOException is recorded, an unchecked one is swallowed by the host's
        wrapper. */
    method RunTask(url: Url, d: nat)
      requires HostOf(web, url).Some?
      modifies this`downloaded, this`errors, this`queueToAdd
      ensures downloaded == old(downloaded) + (if Fetches(web, url) then [url] else [])
      ensures errors == Record(old(errors), url, ErrorOf(web, url, depth - d > 1))
      ensures queueToAdd == old(queueToAdd) + (if depth - d > 1 then Out(web, url) else [])
    {
      match Fetch(web, url)
      case Document(extraction) =>
        if depth - d > 1 {
          Extract(url, extraction);
        }
        downloaded := downloaded + [url];
      case DownloadIOError =>
        errors := errors[url := DownloadFailed];
      case DownloadUnchecked =>
    }

    /** The `addedHosts` lookup of `download`: the host's `HostDownloader`,
        created on first use and returned on every later use. */
    method HostFor(host: HostName) returns (hostDownloader: HostDownloader<Url>)
      requires HostsIdle()
      modifies this`addedHosts, this`hostRepr
      ensures host in old(addedHosts) ==> hostDownloader == old(addedHosts)[host]
      ensures host !in old(addedHosts) ==> fresh(hostDownloader)
      ensures addedHosts == old(addedHosts)[host := hostDownloader]
      ensures hostDownloader in hostRepr
      ensures hostDownloader.Quiet() && hostDownloader.perHost == perHost
      ensures HostsIdle() && fresh(hostRepr - old(hostRepr))
    {
      if host in addedHosts {
        hostDownloader := addedHosts[host];
      } else {
        hostDownloader := new HostDownloader(perHost);
        addedHosts := addedHosts[host := hostDownloader];
        hostRepr := hostRepr + {hostDownloader};
      }
    }

    /** Submit the download unit of `url` to its idle host: the host dispatches
        it at once, it runs, and its completion frees the slot again. */
    method Schedule(hostDownloader: HostDownloader<Url>, url: Url, d: nat)
      requires hostDownloader.Quiet() && hostDownloader.perHost > 0
      requires HostOf(web, url).Some?
      modifies hostDownloader, this`downloaded, this`errors, this`queueToAdd
      ensures hostDownloader.Quiet()
      ensures hostDownloader.started == old(hostDownloader.started) + [url]
      ensures hostDownloader.submitted == old(hostDownloader.submitted) + [url]
      ensures downloaded == old(downloaded) + (if Fetches(web, url) then [url] else [])
      ensures errors == Record(old(errors), url, ErrorOf(web, url, depth - d > 1))
      ensures queueToAdd == old(queueToAdd) + (if depth - d > 1 then Out(web, url) else [])
    {
      var task := hostDownloader.Submit(url);
      assert task == Some(url);
      RunTask(url, d);
      var next := hostDownloader.Complete(url);
      assert next == None;
    }

    /** `Schedule` on one of this crawl's hosts: every host stays idle. */
    method ScheduleOn(hostDownloader: HostDownloader<Url>, url: Url, d: nat)
      requires HostsIdle() && hostDownloader in hostRepr && perHost > 0
      requires HostOf(web, url).Some?
      modifies hostDownloader, this`downloaded, this`errors, this`queueToAdd
      ensures HostsIdle()
      ensures downloaded == old(downloaded) + (if Fetches(web, url) then [url] else [])
      ensures errors == Record(old(errors), url, ErrorOf(web, url, depth - d > 1))
      ensures queueToAdd == old(queueToAdd) + (if depth - d > 1 then Out(web, url) else [])
    {
      Schedule(hostDownloader, url, d);
    }

    /** The part of `download` after the host resolved: find or create the
        host's `HostDownloader` and hand it the download unit. */
    method SubmitTo(host: HostName, url: Url, d: nat)
      requires HostsIdle() && perHost > 0 && HostOf(web, url).Some?
      modifies this`downloaded, this`errors, this`queueToAdd, this`addedHosts, this`hostRepr, hostRepr
      ensures HostsIdle() && fresh(hostRepr - old(hostRepr))
      ensures downloaded == old(downloaded) + (if Fetches(web, url) then [url] else [])
      ensures errors == Record(old(errors), url, ErrorOf(web, url, depth - d > 1))
      ensures queueToAdd == old(queueToAdd) + (if depth - d > 1 then Out(web, url) else [])
    {
      var hostDownloader := HostFor(host);
      ScheduleOn(hostDownloader, url, d);
    }

    /** `download(url, d)`: resolve the host, then submit the download unit. */
    method Download(url: Url, d: nat)
      requires HostsIdle() && perHost > 0
      modifies this`downloaded, this`errors, this`queueToAdd, this`addedHosts, this`hostRepr, hostRepr
      ensures HostsIdle() && fresh(hostRepr - old(hostRepr))
      ensures downloaded == old(downloaded) + (if Fetches(web, url) then [url] else [])
      ensures errors == Record(old(errors), url, ErrorOf(web, url, depth - d > 1))
      ensures queueToAdd == old(queueToAdd) + (if depth - d > 1 then Out(web, url) else [])
    {
      var host := GetHost(url);
      if host.Some? {
        SubmitTo(host.value, url, d);
      }
    }

    /** `swapQueues`: the next frontier becomes the current one. */
    method SwapQueues()
      modifies this`queueToTake, this`queueToAdd
      ensures queueToTake == old(queueToAdd) && queueToAdd == old(queueToTake)
    {
      var tmp := queueToAdd;
      queueToAdd := queueToTake;
      queueToTake := tmp;
    }

    /** The body of the `bfs` loop for one URL of level d: the first time the
        crawl meets `url` it records it in `addedUrls` and downloads it. */
    method Visit(url: Url, d: nat, ghost seen0: set<Url>, ghost frontier: set<Url>)
      requires perHost > 0 && HostsIdle() && Recorded()
      requires ExtractsAt(web, seed, depth, d, seen0, frontier) && url in frontier
      requires seen0 <= addedUrls
      requires Elems(queueToAdd) == (if depth - d > 1 then Succ(web, addedUrls - seen0) else {})
      modifies this`downloaded, this`errors, this`queueToAdd, this`addedUrls, this`addedHosts, this`hostRepr, hostRepr
      ensures HostsIdle() && Recorded() && fresh(hostRepr - old(hostRepr))
      ensures addedUrls == old(addedUrls) + {url}
      ensures Elems(queueToAdd) == (if depth - d > 1 then Succ(web, addedUrls - seen0) else {})
    {
      if url !in addedUrls {
        ghost var (added, downloaded0, errors0, queued) := (addedUrls, downloaded, errors, queueToAdd);
        addedUrls := addedUrls + {url};
        Download(url, d);
        VisitStep(web, seed, depth, d, seen0, added, url, downloaded0, errors0, queued,
                  downloaded, errors, queueToAdd);
      }
    }

    /** Partway through level d, after the first i URLs of its frontier
        queue q0: those URLs are scheduled and the rest still queued. */
    ghost predicate Draining(d: nat, seen: set<Url>, q0: seq<Url>, i: nat)
      reads this, hostRepr
    {
      && HostsIdle() && Recorded()
      && i <= |q0| && queueToTake == q0[i..]
      && addedUrls == seen + Elems(q0[..i])
      && Elems(queueToAdd) == (if depth - d > 1 then Succ(web, addedUrls - seen) else {})
    }

    /** One turn of the `bfs` loop: take the next URL of the frontier and visit it. */
    method DrainNext(d: nat, ghost seen: set<Url>, ghost frontier: set<Url>, ghost q0: seq<Url>, ghost i: nat)
      returns (ghost next: nat)
      requires perHost > 0 && ExtractsAt(web, seed, depth, d, seen, frontier) && Elems(q0) == frontier
      requires Draining(d, seen, q0, i) && queueToTake != []
      modifies this`downloaded, this`errors, this`queueToAdd, this`queueToTake, this`addedUrls, this`addedHosts, this`hostRepr, hostRepr
      ensures next == i + 1 && Draining(d, seen, q0, next) && fresh(hostRepr - old(hostRepr))
    {
      var url := queueToTake[0];
      assert url == q0[i];
      Visit(url, d, seen, frontier);
      queueToTake := queueToTake[1..];
      next := i + 1;
      assert q0[..next] == q0[..i] + [url];
    }

    /** One level of `bfs`: drain the current frontier, scheduling each URL
        not scheduled before; all its work is done when the loop ends, and the
        next frontier holds the links of the URLs it scheduled. */
    method DrainLevel(d: nat, ghost seen: set<Url>, ghost frontier: set<Url>)
      requires perHost > 0 && HostsIdle() && Recorded()
      requires ExtractsAt(web, seed, depth, d, seen, frontier)
      requires addedUrls == seen && Elems(queueToTake) == frontier && queueToAdd == []
      modifies this`downloaded, this`errors, this`queueToAdd, this`queueToTake, this`addedUrls, this`addedHosts, this`hostRepr, hostRepr
      ensures HostsIdle() && Recorded() && fresh(hostRepr - old(hostRepr))
      ensures addedUrls == seen + frontier && queueToTake == []
      ensures Elems(queueToAdd) == (if depth - d > 1 then Succ(web, frontier - seen) else {})
    {
      ghost var q0 := queueToTake;
      ghost var i := 0;
      assert q0[..0] == [];
      while queueToTake != []
        invariant Draining(d, seen, q0, i)
        invariant fresh(hostRepr - old(hostRepr))
        decreases |queueToTake|
      {
        i := DrainNext(d, seen, frontier, q0, i);
      }
      assert q0[..i] == q0;
      assert (seen + frontier) - seen == frontier - seen;
    }

    /** The state at the start of level d: hosts idle, outcomes recorded, the
        scheduled set and the frontier those of `LayerAt(d)`. */
    ghost predicate AtLevel(d: nat)
      reads this, hostRepr
    {
      && HostsIdle() && Recorded()
      && addedUrls == LayerAt(web, seed, depth, d).seen
      && Elems(queueToAdd) == LayerAt(web, seed, depth, d).frontier && queueToTake == []
    }

    /** One call of `bfs(d)` for d < depth, without its recursive call: swap
        the queues, drain the frontier and wait for the level's work.  The
        crawl moves from `LayerAt(d)` to `LayerAt(d + 1)`. */
    method BfsLevel(d: nat) returns (next: nat)
      requires d < depth && perHost > 0 && AtLevel(d)
      modifies this`downloaded, this`errors, this`queueToAdd, this`queueToTake, this`addedUrls, this`addedHosts, this`hostRepr, hostRepr
      ensures next == d + 1 && AtLevel(next) && fresh(hostRepr - old(hostRepr))
    {
      next := d + 1;
      ghost var layer := LayerAt(web, seed, depth, d);
      LayerExtracts(web, seed, depth, d);
      assert LayerAt(web, seed, depth, next)
          == Layer(layer.seen + layer.frontier, if depth - d > 1 then Succ(web, layer.frontier - layer.seen) else {});
      SwapQueues();
      DrainLevel(d, layer.seen, layer.frontier);
    }

    /** `bfs(d)`: the levels d, d + 1, ..., depth - 1 in turn; the loop
        replaces the tail recursion. */
    method Bfs(d: nat)
      requires d <= depth && perHost > 0 && AtLevel(d)
      modifies this`downloaded, this`errors, this`queueToAdd, this`queueToTake, this`addedUrls, this`addedHosts, this`hostRepr, hostRepr
      ensures Recorded() && addedUrls == Within(web, seed, depth)
    {
      var level := d;
      while level != depth
        invariant d <= level <= depth && AtLevel(level)
        invariant fresh(hostRepr - old(hostRepr))
        decreases depth - level
      {
        level := BfsLevel(level);
      }
      SeenIsWithin(web, seed, depth);
    }

    /** `run(url)`: the seed is the only URL of the first frontier. */
    method Run(url: Url)
      requires url == seed && perHost > 0
      requires downloaded == [] && errors == map[] && addedUrls == {} && addedHosts == map[] && hostRepr == {}
      requires queueToTake == [] && queueToAdd == []
      modifies this
      ensures Recorded() && addedUrls == Within(web, url, depth)
    {
      queueToAdd := queueToAdd + [url];
      assert Elems(queueToAdd) == {url};
      assert ErrorsAmong(web, {}, Within(web, seed, ExtractingLevels(depth))) == map[];
      Bfs(0);
    }

    method GetResult() returns (result: Result)
      ensures result == Result(downloaded, errors)
    {
      result := Result(downloaded, errors);
    }
  }

  class WebCrawler {
    const web: Web
    const perHost: int

    constructor (web: Web, perHost: int)
      ensures this.web == web && this.perHost == perHost
    {
      this.web := web;
      this.perHost := perHost;
    }

    /** `download(url, depth)`: a fresh crawl.  The result lists each URL at
        most once, and its downloaded set and error map are those of `Expected`:
        the URLs fewer than `depth` links from the seed, with their outcomes. */
    method Download(url: Url, depth: nat) returns (result: Result)
      requires perHost > 0
      ensures NoDuplicates(result.downloaded)
      ensures Elems(result.downloaded) == Expected(web, url, depth).downloaded
      ensures result.errors == Expected(web, url, depth).errors
    {
      var webDownloader := new WebDownloader(web, perHost, depth, url);
      webDownloader.Run(url);
      result := webDownloader.GetResult();
    }
  }
}
