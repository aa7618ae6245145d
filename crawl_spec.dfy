/**
 * What a crawl computes, independent of how it is scheduled.
 *
 * The crawler's collaborators are inputs: `getHost` (which fails on a
 * malformed URL), the downloader (which fails with an `IOException` or, in
 * principle, an unchecked exception) and the document's link extraction
 * (which fails the same two ways).  From them this module defines
 *  - the link graph and its balls `Ball(k)` (URLs within k links of the seed);
 *  - `LayerAt(d)`, the level-by-level recurrence the breadth-first crawl follows:
 *    the URLs scheduled before level d and the frontier of level d;
 *  - `Expected`, the downloaded set and the error map of a crawl of a given depth;
 * and proves that the recurrence visits exactly the balls, that a ball is the
 * set of URLs with a short enough link path, and how outcomes are recorded.
 */
module CrawlSpec {
  import opened Wrappers

  type Url = string
  type HostName = string

  /** What `Document.extractLinks` does. */
  datatype Extraction = Links(urls: seq<Url>) | ExtractIOError | ExtractUnchecked

  /** What `Downloader.download` does. */
  datatype Response = Document(extraction: Extraction) | DownloadIOError | DownloadUnchecked

  /** The crawler's collaborators as finite maps: `URLUtils.getHost` (a URL
      missing from `hosts` is malformed) and the downloader (a page missing
      from `pages` fails with an `IOException`). */
  datatype Web = Web(hosts: map<Url, HostName>, pages: map<Url, Response>)

  function HostOf(web: Web, u: Url): Option<HostName> {
    if u in web.hosts then Some(web.hosts[u]) else None
  }

  function Fetch(web: Web, u: Url): Response {
    if u in web.pages then web.pages[u] else DownloadIOError
  }

  /** The exceptions recorded in the error map, by where they arose. */
  datatype Error = MalformedUrl | DownloadFailed | ExtractFailed

  /** The crawl's result: `downloaded` as a set, and the error map. */
  datatype Outcome = Outcome(downloaded: set<Url>, errors: map<Url, Error>)

  /** Scheduling `u` adds it to `downloaded`: its host resolves and its page is fetched. */
  predicate Fetches(web: Web, u: Url) {
    HostOf(web, u).Some? && Fetch(web, u).Document?
  }

  /** The links taken from `u`'s page when extraction is attempted and succeeds. */
  function Out(web: Web, u: Url): seq<Url> {
    if Fetches(web, u) && Fetch(web, u).extraction.Links? then Fetch(web, u).extraction.urls else []
  }

  /** The error recorded for a scheduled URL `u`; `extract` says whether its
      level still extracts links.  Unchecked exceptions record nothing. */
  function ErrorOf(web: Web, u: Url, extract: bool): Option<Error> {
    if HostOf(web, u).None? then Some(MalformedUrl)
    else
      match Fetch(web, u)
      case DownloadIOError => Some(DownloadFailed)
      case DownloadUnchecked => None
      case Document(x) => if extract && x.ExtractIOError? then Some(ExtractFailed) else None
  }

  /** The URLs linked from the pages of `s`. */
  function Succ(web: Web, s: set<Url>): set<Url> {
    set u, v | u in s && v in Out(web, u) :: v
  }

  /** The URLs at most `k` links away from `seed`. */
  function Ball(web: Web, seed: Url, k: nat): set<Url> {
    if k == 0 then {seed} else Ball(web, seed, k - 1) + Succ(web, Ball(web, seed, k - 1))
  }

  /** The URLs fewer than `n` links away from `seed`. */
  function Within(web: Web, seed: Url, n: nat): set<Url> {
    if n == 0 then {} else Ball(web, seed, n - 1)
  }

  function FetchedAmong(web: Web, s: set<Url>): set<Url> {
    set u | u in s && Fetches(web, u)
  }

  /** The error map of a crawl that scheduled `s` and extracted links of the
      URLs in `extracted`. */
  function ErrorsAmong(web: Web, s: set<Url>, extracted: set<Url>): map<Url, Error> {
    map u | u in s && ErrorOf(web, u, u in extracted).Some? :: ErrorOf(web, u, u in extracted).value
  }

  /** `errors.put(u, e)` when an error arose, nothing otherwise. */
  function Record(m: map<Url, Error>, u: Url, e: Option<Error>): map<Url, Error> {
    if e.Some? then m[u := e.value] else m
  }

  /** The number of levels that extract links: all but the last. */
  function ExtractingLevels(depth: nat): nat {
    if depth == 0 then 0 else depth - 1
  }

  /** A crawl of depth `depth` schedules the URLs fewer than `depth` links away
      and extracts links only on the levels before the last. */
  function Expected(web: Web, seed: Url, depth: nat): Outcome {
    var reached := Within(web, seed, depth);
    var extracted := Within(web, seed, ExtractingLevels(depth));
    Outcome(FetchedAmong(web, reached), ErrorsAmong(web, reached, extracted))
  }

  /** The state of the breadth-first crawl at the start of level d: the URLs
      scheduled before it and its frontier (the links extracted on level d-1;
      level d-1 extracts only when depth - (d-1) > 1). */
  datatype Layer = Layer(seen: set<Url>, frontier: set<Url>)

  function LayerAt(web: Web, seed: Url, depth: nat, d: nat): Layer {
    if d == 0 then Layer({}, {seed})
    else
      var p := LayerAt(web, seed, depth, d - 1);
      Layer(p.seen + p.frontier, if depth - (d - 1) > 1 then Succ(web, p.frontier - p.seen) else {})
  }

  // ---------------------------------------------------------------- graph facts

  /** A link of a page in `s` is a successor of `s`. */
  lemma SuccHas(web: Web, s: set<Url>, v: Url, u: Url)
    requires v in s && u in Out(web, v)
    ensures u in Succ(web, s)
  {
  }

  /** Every successor of `s` is linked from some page of `s`. */
  lemma SuccFrom(web: Web, s: set<Url>, u: Url) returns (v: Url)
    requires u in Succ(web, s)
    ensures v in s && u in Out(web, v)
  {
    v :| v in s && u in Out(web, v);
  }

  lemma SuccUnion(web: Web, a: set<Url>, b: set<Url>)
    ensures Succ(web, a + b) == Succ(web, a) + Succ(web, b)
  {
    forall v | v in Succ(web, a + b)
      ensures v in Succ(web, a) + Succ(web, b)
    {
      var u :| u in a + b && v in Out(web, u);
      if u in a {
        assert v in Succ(web, a);
      } else {
        assert v in Succ(web, b);
      }
    }
  }

  /** Adding one URL to a set adds exactly that URL's links to its successors. */
  lemma SuccAddOne(web: Web, a: set<Url>, u: Url)
    ensures Succ(web, a + {u}) == Succ(web, a) + (set v | v in Out(web, u))
  {
    SuccUnion(web, a, {u});
    assert Succ(web, {u}) == (set v | v in Out(web, u));
  }

  lemma BallGrows(web: Web, seed: Url, k: nat)
    ensures Ball(web, seed, k) <= Ball(web, seed, k + 1)
  {
    assert Ball(web, seed, k + 1) == Ball(web, seed, k) + Succ(web, Ball(web, seed, k));
  }

  lemma {:induction false} BallMono(web: Web, seed: Url, k: nat, m: nat)
    requires k <= m
    ensures Ball(web, seed, k) <= Ball(web, seed, m)
    decreases m
  {
    if k < m {
      BallMono(web, seed, k, m - 1);
      BallGrows(web, seed, m - 1);
    }
  }

  lemma WithinMono(web: Web, seed: Url, k: nat, m: nat)
    requires k <= m
    ensures Within(web, seed, k) <= Within(web, seed, m)
  {
    if k > 0 {
      BallMono(web, seed, k - 1, m - 1);
    }
  }

  /** Membership form of `WithinMono`. */
  lemma WithinMember(web: Web, seed: Url, k: nat, m: nat, u: Url)
    requires k <= m && u in Within(web, seed, k)
    ensures u in Within(web, seed, m)
  {
    WithinMono(web, seed, k, m);
  }

  /** The links of a URL fewer than n links away are at most n links away. */
  lemma SuccWithin(web: Web, seed: Url, n: nat)
    ensures Succ(web, Within(web, seed, n)) <= Within(web, seed, n + 1)
  {
  }

  /** If `seen` is `a` and `seen + frontier` is `b`, the new part of the
      frontier is `b - a`. */
  lemma NewPart(seen: set<Url>, frontier: set<Url>, a: set<Url>, b: set<Url>)
    requires seen == a && seen + frontier == b
    ensures frontier - seen == b - a
  {
  }

  /** The ball one link larger is the ball plus the links of its outer shell. */
  lemma ShellSucc(web: Web, seed: Url, d: nat)
    requires d > 0
    ensures Within(web, seed, d) + Succ(web, Within(web, seed, d) - Within(web, seed, d - 1))
            == Within(web, seed, d + 1)
  {
    var inner := Within(web, seed, d - 1);
    var shell := Within(web, seed, d) - inner;
    WithinMono(web, seed, d - 1, d);
    assert Within(web, seed, d) == inner + shell;
    SuccUnion(web, inner, shell);
    SuccWithin(web, seed, d - 1);
    assert Within(web, seed, d + 1) == Within(web, seed, d) + Succ(web, Within(web, seed, d));
  }

  // ------------------------------------------------- the crawl visits the balls

  /** Before every level d < depth the crawl has scheduled exactly the URLs
      fewer than d links away, and the scheduled URLs together with the
      frontier are exactly those fewer than d + 1 links away. */
  lemma {:induction false} LayerIsBall(web: Web, seed: Url, depth: nat, d: nat)
    requires d < depth
    ensures LayerAt(web, seed, depth, d).seen == Within(web, seed, d)
    ensures LayerAt(web, seed, depth, d).seen + LayerAt(web, seed, depth, d).frontier
            == Within(web, seed, d + 1)
    decreases d
  {
    if d > 0 {
      LayerIsBall(web, seed, depth, d - 1);
      var p := LayerAt(web, seed, depth, d - 1);
      NewPart(p.seen, p.frontier, Within(web, seed, d - 1), Within(web, seed, d));
      ShellSucc(web, seed, d);
    }
  }

  /** After all levels, the crawl has scheduled the URLs fewer than `depth` links away. */
  lemma SeenIsWithin(web: Web, seed: Url, depth: nat)
    ensures LayerAt(web, seed, depth, depth).seen == Within(web, seed, depth)
  {
    if depth > 0 {
      LayerIsBall(web, seed, depth, depth - 1);
    }
  }

  /** Strict layering: the URLs first scheduled on level d < depth are exactly
      those at link distance d from the seed. */
  lemma LevelIsShell(web: Web, seed: Url, depth: nat, d: nat)
    requires d < depth
    ensures LayerAt(web, seed, depth, d).frontier - LayerAt(web, seed, depth, d).seen
            == Within(web, seed, d + 1) - Within(web, seed, d)
  {
    LayerIsBall(web, seed, depth, d);
  }

  /** A URL at link distance d < depth lies in the extraction set of
      `Expected` exactly when depth - d > 1. */
  lemma ShellExtracts(web: Web, seed: Url, depth: nat, d: nat, u: Url)
    requires d < depth && u in Within(web, seed, d + 1) && u !in Within(web, seed, d)
    ensures (u in Within(web, seed, depth - 1)) <==> depth - d > 1
  {
    if depth - d > 1 {
      WithinMember(web, seed, d + 1, depth - 1, u);
      assert u in Within(web, seed, depth - 1);
    } else {
      assert depth - 1 == d;
      assert u !in Within(web, seed, depth - 1);
    }
  }

  /** A URL first scheduled on level d has its links extracted (it lies in
      the extraction set of `Expected`) exactly when depth - d > 1. */
  lemma LevelExtracts(web: Web, seed: Url, depth: nat, d: nat, u: Url)
    requires d < depth
    requires u in LayerAt(web, seed, depth, d).frontier - LayerAt(web, seed, depth, d).seen
    ensures (u in Within(web, seed, depth - 1)) <==> depth - d > 1
  {
    LevelIsShell(web, seed, depth, d);
    ShellExtracts(web, seed, depth, d, u);
  }

  /** Depth gating: the links found on a level d with d + 1 < depth are all
      scheduled by level d + 1, and the last level extracts nothing, so no link
      found there is ever scheduled. */
  lemma DepthGating(web: Web, seed: Url, depth: nat, d: nat, v: Url)
    ensures d + 1 < depth && v in LayerAt(web, seed, depth, d).frontier - LayerAt(web, seed, depth, d).seen
            ==> (set u | u in Out(web, v)) <= LayerAt(web, seed, depth, d + 2).seen
    ensures depth > 0 ==> LayerAt(web, seed, depth, depth).frontier == {}
  {
    if d + 1 < depth && v in LayerAt(web, seed, depth, d).frontier - LayerAt(web, seed, depth, d).seen {
      var p := LayerAt(web, seed, depth, d);
      SuccAddOne(web, (p.frontier - p.seen) - {v}, v);
      assert (p.frontier - p.seen) - {v} + {v} == p.frontier - p.seen;
    }
  }

  // ------------------------------------------------------ balls are short paths

  /** `p` is a chain of extracted links from `seed` to `u`. */
  ghost predicate PathFrom(web: Web, seed: Url, u: Url, p: seq<Url>) {
    && |p| >= 1 && p[0] == seed && p[|p| - 1] == u
    && forall i | 0 <= i < |p| - 1 :: p[i + 1] in Out(web, p[i])
  }

  lemma {:induction false} BallHasPath(web: Web, seed: Url, k: nat, u: Url) returns (p: seq<Url>)
    requires u in Ball(web, seed, k)
    ensures PathFrom(web, seed, u, p) && |p| <= k + 1
    decreases k
  {
    if k == 0 {
      p := [seed];
    } else if u in Ball(web, seed, k - 1) {
      p := BallHasPath(web, seed, k - 1, u);
    } else {
      var v := SuccFrom(web, Ball(web, seed, k - 1), u);
      var q := BallHasPath(web, seed, k - 1, v);
      p := q + [u];
      PathExtend(web, seed, v, q, u);
    }
  }

  /** A path to v followed by a link of v is a path to that link. */
  lemma PathExtend(web: Web, seed: Url, v: Url, q: seq<Url>, u: Url)
    requires PathFrom(web, seed, v, q) && u in Out(web, v)
    ensures PathFrom(web, seed, u, q + [u])
  {
    var p := q + [u];
    forall i | 0 <= i < |p| - 1
      ensures p[i + 1] in Out(web, p[i])
    {
      if i < |q| - 1 {
        assert p[i] == q[i] && p[i + 1] == q[i + 1];
      }
    }
  }

  lemma {:induction false} PathInBall(web: Web, seed: Url, k: nat, u: Url, p: seq<Url>)
    requires PathFrom(web, seed, u, p) && |p| <= k + 1
    ensures u in Ball(web, seed, k)
    decreases k
  {
    if |p| == 1 {
      BallMono(web, seed, 0, k);
    } else {
      var q := p[..|p| - 1];
      var v := p[|p| - 2];
      assert PathFrom(web, seed, v, q);
      PathInBall(web, seed, k - 1, v, q);
      assert u in Out(web, v);
      SuccHas(web, Ball(web, seed, k - 1), v, u);
    }
  }

  /** A crawl of depth `depth` schedules `u` exactly when a chain of fewer than
      `depth` extracted links leads from the seed to `u`. */
  lemma WithinIsShortPaths(web: Web, seed: Url, depth: nat, u: Url)
    ensures u in Within(web, seed, depth) <==> exists p :: PathFrom(web, seed, u, p) && |p| <= depth
  {
    if u in Within(web, seed, depth) {
      var p := BallHasPath(web, seed, depth - 1, u);
    }
    if p :| PathFrom(web, seed, u, p) && |p| <= depth {
      PathInBall(web, seed, depth - 1, u, p);
    }
  }

  // ------------------------------------------------------ outcome bookkeeping

  /** Scheduling one more URL adds its own outcome and nothing else. */
  lemma ScheduleOne(web: Web, s: set<Url>, extracted: set<Url>, u: Url)
    ensures FetchedAmong(web, s + {u}) == FetchedAmong(web, s) + (if Fetches(web, u) then {u} else {})
    ensures ErrorsAmong(web, s + {u}, extracted)
            == Record(ErrorsAmong(web, s, extracted), u, ErrorOf(web, u, u in extracted))
  {
    var e := ErrorOf(web, u, u in extracted);
    var lhs := ErrorsAmong(web, s + {u}, extracted);
    var rhs := Record(ErrorsAmong(web, s, extracted), u, e);
    assert lhs.Keys == rhs.Keys;
    forall k | k in lhs.Keys
      ensures lhs[k] == rhs[k]
    {
    }
  }

  /** How each URL is accounted for: downloaded iff reached and fetched; a
      malformed URL or a failed fetch is an error and not downloaded; a failed
      extraction (only on levels before the last) is an error of a URL that is
      also downloaded, so the two collections may overlap exactly there. */
  lemma Bookkeeping(web: Web, seed: Url, depth: nat, u: Url)
    ensures var r := Expected(web, seed, depth);
      var reached := Within(web, seed, depth);
      && (u in r.downloaded <==> u in reached && Fetches(web, u))
      && (u in r.errors && r.errors[u] == MalformedUrl <==> u in reached && HostOf(web, u).None?)
      && (u in r.errors && r.errors[u] == DownloadFailed
          <==> u in reached && HostOf(web, u).Some? && Fetch(web, u).DownloadIOError?)
      && (u in r.errors && r.errors[u] == ExtractFailed
          <==> u in Within(web, seed, ExtractingLevels(depth)) && Fetches(web, u)
               && Fetch(web, u).extraction.ExtractIOError?)
      && (u in r.errors && r.errors[u] != ExtractFailed ==> u !in r.downloaded)
      && (u in r.errors && r.errors[u] == ExtractFailed ==> u in r.downloaded)
  {
    WithinMono(web, seed, ExtractingLevels(depth), depth);
  }

  /** Depth 0 downloads nothing; depth 1 fetches only the seed and extracts nothing. */
  lemma ShallowCrawls(web: Web, seed: Url)
    ensures Expected(web, seed, 0) == Outcome({}, map[])
    ensures Expected(web, seed, 1).downloaded == (if Fetches(web, seed) then {seed} else {})
    ensures Expected(web, seed, 1).errors ==
              (if ErrorOf(web, seed, false).Some? then map[seed := ErrorOf(web, seed, false).value] else map[])
  {
    assert Within(web, seed, 1) == {seed};
  }
}
