/**
 * The request subscriber that swaps the site's front page for a per-host one
 * (`DynamicFrontpageSubscriber::checkFrontRedirection`).
 *
 * On the main request for the front page, the configured pairs are folded into
 * a table from domain to path; the request's host picks an entry of that table,
 * or the site's `page.front` when it has none, and a GET sub-request for that
 * path, carrying the original's scheme, host, port, headers and cookies, is
 * handed to the HTTP kernel. Its response becomes the event's response.
 */
module FrontpageSubscriber {
  import opened Php
  import opened DomainEntity

  /** The parts of an HTTP request this decision reads or builds. */
  datatype Request = Request(
    httpMethod: string,
    uri: string,  // the path, which is also REQUEST_URI
    secure: bool,
    host: string,
    port: int,
    headers: map<string, seq<string>>,
    cookies: map<string, string>)

  datatype Response = Response(status: int, body: string)

  /** The warning logged for a type without a canonical link template, naming the type. */
  datatype LogEntry = MissingCanonicalTemplate(entityType: Value)

  /** The site as seen by the subscriber: entities, the alias manager and `system.site:page.front`. */
  datatype Site = Site(entities: EntityServices, aliasByPath: string -> string, pageFront: string)

  /** The configured pairs, `$config->get('domain_entity_pairs') ?? []`. */
  function ConfiguredPairs(config: Config): seq<Pair>
  {
    OrEmpty(StoredPairs(config))
  }

  /** A pair enters the table when its entity loads and its type has a canonical link template. */
  predicate Resolvable(site: Site, p: Pair)
  {
    site.entities.load(p.entityType, p.entityId).Some? && site.entities.hasCanonical(p.entityType)
  }

  /** A pair is reported when its entity loads but its type has no canonical link template. */
  predicate Unsupported(site: Site, p: Pair)
  {
    site.entities.load(p.entityType, p.entityId).Some? && !site.entities.hasCanonical(p.entityType)
  }

  /** The path stored for a resolvable pair: the alias when it is truthy, else the canonical URL. */
  function StoredPath(site: Site, p: Pair): string
    requires Resolvable(site, p)
  {
    var url := site.entities.canonicalUrl(site.entities.load(p.entityType, p.entityId).value);
    var alias := site.aliasByPath(url);
    if !IsEmpty(Str(alias)) then alias else url
  }

  /** The table `$front_pages` after the loop has visited all of `pairs`. */
  function FrontPages(site: Site, pairs: seq<Pair>): map<Key, string>
    decreases |pairs|
  {
    if pairs == [] then map[]
    else
      var before := FrontPages(site, pairs[..|pairs| - 1]);
      var p := pairs[|pairs| - 1];
      if Resolvable(site, p) then before[ArrayKey(p.domain) := StoredPath(site, p)] else before
  }

  /** The warnings the loop logs while visiting `pairs`, in order. */
  function Warnings(site: Site, pairs: seq<Pair>): seq<LogEntry>
    decreases |pairs|
  {
    if pairs == [] then []
    else
      var p := pairs[|pairs| - 1];
      Warnings(site, pairs[..|pairs| - 1])
        + if Unsupported(site, p) then [MissingCanonicalTemplate(p.entityType)] else []
  }

  /** The path to serve: the host's table entry when it is there and non-empty, else `page.front`. */
  function ChosenPath(frontPages: map<Key, string>, host: string, pageFront: string): (path: string)
    ensures path == pageFront
            || (ArrayKey(Str(host)) in frontPages && path == frontPages[ArrayKey(Str(host))]
                && !IsEmpty(Str(path)))
    ensures ArrayKey(Str(host)) in frontPages && !IsEmpty(Str(frontPages[ArrayKey(Str(host))]))
            ==> path == frontPages[ArrayKey(Str(host))]
  {
    var key := ArrayKey(Str(host));
    if key in frontPages && !IsEmpty(Str(frontPages[key])) then frontPages[key] else pageFront
  }

  /** `Request::create($path, 'GET', ...)` with the original's server values, headers and cookies. */
  function SubRequest(original: Request, path: string): Request
  {
    Request("GET", path, original.secure, original.host, original.port,
            original.headers, original.cookies)
  }

  /** The sub-request the subscriber dispatches, or None when it leaves the event alone. */
  function FrontRedirect(site: Site, config: Config, isMain: bool, isFront: bool, request: Request)
    : Option<Request>
  {
    if isMain && isFront then
      var path := ChosenPath(FrontPages(site, ConfiguredPairs(config)), request.host, site.pageFront);
      Some(SubRequest(request, path))
    else
      None
  }

  // ---------------------------------------------------------------------------
  // The table
  // ---------------------------------------------------------------------------

  /** Index `k` holds the last resolvable pair whose domain gives `key`. */
  ghost predicate IsLastFor(site: Site, pairs: seq<Pair>, key: Key, k: int)
  {
    && 0 <= k < |pairs|
    && Resolvable(site, pairs[k])
    && ArrayKey(pairs[k].domain) == key
    && forall j :: k < j < |pairs| && Resolvable(site, pairs[j]) ==> ArrayKey(pairs[j].domain) != key
  }

  /** One more pair: a pair that does not resolve leaves the table as it was. */
  lemma FrontPagesAppend(site: Site, pairs: seq<Pair>, p: Pair)
    ensures !Resolvable(site, p) ==> FrontPages(site, pairs + [p]) == FrontPages(site, pairs)
    ensures Resolvable(site, p) ==>
      FrontPages(site, pairs + [p]) == FrontPages(site, pairs)[ArrayKey(p.domain) := StoredPath(site, p)]
  {
  }

  /** One more pair logs one warning, naming its type, exactly when it loads without a canonical template. */
  lemma WarningsAppend(site: Site, pairs: seq<Pair>, p: Pair)
    ensures Unsupported(site, p) ==>
      Warnings(site, pairs + [p]) == Warnings(site, pairs) + [MissingCanonicalTemplate(p.entityType)]
    ensures !Unsupported(site, p) ==> Warnings(site, pairs + [p]) == Warnings(site, pairs)
  {
  }

  /**
   * The table has an entry for `key` exactly when some resolvable pair has that
   * domain, and the entry is the path of the last such pair.
   */
  lemma {:induction false} FrontPagesEntry(site: Site, pairs: seq<Pair>, key: Key)
    ensures key !in FrontPages(site, pairs) <==>
      forall k :: 0 <= k < |pairs| && Resolvable(site, pairs[k]) ==> ArrayKey(pairs[k].domain) != key
    ensures forall k :: IsLastFor(site, pairs, key, k) ==>
      key in FrontPages(site, pairs) && FrontPages(site, pairs)[key] == StoredPath(site, pairs[k])
    decreases |pairs|
  {
    if pairs != [] {
      var init, p := pairs[..|pairs| - 1], pairs[|pairs| - 1];
      assert pairs == init + [p];
      FrontPagesEntry(site, init, key);
      FrontPagesAppend(site, init, p);
      forall k | IsLastFor(site, pairs, key, k)
        ensures key in FrontPages(site, pairs) && FrontPages(site, pairs)[key] == StoredPath(site, pairs[k])
      {
        if k < |init| {
          assert IsLastFor(site, init, key, k);
        }
      }
    }
  }

  /** Every warning comes from a pair that loaded without a canonical template, and names its type. */
  lemma {:induction false} WarningsFromUnsupported(site: Site, pairs: seq<Pair>)
    ensures |Warnings(site, pairs)| <= |pairs|
    ensures forall w :: w in Warnings(site, pairs) ==>
      exists k :: 0 <= k < |pairs| && Unsupported(site, pairs[k]) && w == MissingCanonicalTemplate(pairs[k].entityType)
    decreases |pairs|
  {
    if pairs != [] {
      var init, p := pairs[..|pairs| - 1], pairs[|pairs| - 1];
      WarningsFromUnsupported(site, init);
      forall w | w in Warnings(site, pairs)
        ensures exists k :: 0 <= k < |pairs| && Unsupported(site, pairs[k]) && w == MissingCanonicalTemplate(pairs[k].entityType)
      {
        if w in Warnings(site, init) {
          var k :| 0 <= k < |init| && Unsupported(site, init[k]) && w == MissingCanonicalTemplate(init[k].entityType);
          assert pairs[k] == init[k];
        } else {
          assert pairs[|pairs| - 1] == p;
        }
      }
    }
  }

  // ---------------------------------------------------------------------------
  // The decision
  // ---------------------------------------------------------------------------

  /**
   * The subscriber acts only on the main request for the front page; what it
   * dispatches is a GET for the chosen path with the original's scheme, host,
   * port, headers and cookies. A sub-request (not main) never dispatches again.
   */
  lemma FrontRedirectShape(site: Site, config: Config, isMain: bool, isFront: bool, request: Request)
    ensures FrontRedirect(site, config, isMain, isFront, request).Some? <==> isMain && isFront
    ensures FrontRedirect(site, config, false, isFront, request) == None
    ensures match FrontRedirect(site, config, isMain, isFront, request)
      case None => true
      case Some(sub) =>
        && sub.httpMethod == "GET"
        && sub.uri == ChosenPath(FrontPages(site, ConfiguredPairs(config)), request.host, site.pageFront)
        && sub.secure == request.secure && sub.host == request.host && sub.port == request.port
        && sub.headers == request.headers && sub.cookies == request.cookies
  {
  }

  /** A host that no resolvable pair names is served `page.front`. */
  lemma UnmappedHostGetsDefault(site: Site, config: Config, request: Request)
    requires forall k :: 0 <= k < |ConfiguredPairs(config)| && Resolvable(site, ConfiguredPairs(config)[k])
               ==> ArrayKey(ConfiguredPairs(config)[k].domain) != ArrayKey(Str(request.host))
    ensures FrontRedirect(site, config, true, true, request) == Some(SubRequest(request, site.pageFront))
  {
    FrontPagesEntry(site, ConfiguredPairs(config), ArrayKey(Str(request.host)));
  }

  /**
   * A host whose last resolvable pair is at index `k` is served that pair's
   * alias, or its canonical URL when the alias is empty; should that path be
   * empty too, `page.front` is served.
   */
  lemma MappedHostGetsEntityPath(site: Site, config: Config, request: Request, k: int)
    requires IsLastFor(site, ConfiguredPairs(config), ArrayKey(Str(request.host)), k)
    ensures var path := StoredPath(site, ConfiguredPairs(config)[k]);
      FrontRedirect(site, config, true, true, request)
        == Some(SubRequest(request, if IsEmpty(Str(path)) then site.pageFront else path))
  {
    FrontPagesEntry(site, ConfiguredPairs(config), ArrayKey(Str(request.host)));
  }

  // ---------------------------------------------------------------------------
  // The imperative subscriber
  // ---------------------------------------------------------------------------

  /** The foreach over the configured pairs, filling `$front_pages` in place. */
  method CollectFrontPages(site: Site, pairs: seq<Pair>) returns (frontPages: map<Key, string>, warnings: seq<LogEntry>)
    ensures frontPages == FrontPages(site, pairs)
    ensures warnings == Warnings(site, pairs)
  {
    frontPages, warnings := map[], [];
    var i := 0;
    while i < |pairs|
      invariant 0 <= i <= |pairs|
      invariant frontPages == FrontPages(site, pairs[..i])
      invariant warnings == Warnings(site, pairs[..i])
    {
      var pair := pairs[i];
      assert pairs[..i + 1] == pairs[..i] + [pair];
      FrontPagesAppend(site, pairs[..i], pair);
      WarningsAppend(site, pairs[..i], pair);
      var loaded := site.entities.load(pair.entityType, pair.entityId);
      if loaded.Some? {
        if site.entities.hasCanonical(pair.entityType) {
          var entityUrl := site.entities.canonicalUrl(loaded.value);
          var pathAlias := site.aliasByPath(entityUrl);
          frontPages := frontPages[ArrayKey(pair.domain) := if !IsEmpty(Str(pathAlias)) then pathAlias else entityUrl];
        } else {
          warnings := warnings + [MissingCanonicalTemplate(pair.entityType)];
        }
      }
      i := i + 1;
    }
    assert pairs[..|pairs|] == pairs;
  }

  /** The `dynamic_frontpage` log channel. */
  class Logger {
    var entries: seq<LogEntry>

    constructor ()
      ensures entries == []
    {
      entries := [];
    }
  }

  /** The kernel's request event. */
  class RequestEvent {
    const request: Request
    const isMain: bool
    var response: Option<Response>

    constructor (request: Request, isMain: bool)
      ensures this.request == request && this.isMain == isMain && response == None
    {
      this.request := request;
      this.isMain := isMain;
      response := None;
    }

    method SetResponse(r: Response)
      modifies this
      ensures response == Some(r)
    {
      response := Some(r);
    }
  }

  class DynamicFrontpageSubscriber {
    const kernel: Request -> Response    // httpKernel->handle($sub, SUB_REQUEST)
    const site: Site
    const config: Config                 // dynamic_frontpage.domain_entity_config
    const isFrontPage: Request -> bool   // path.matcher's isFrontPage()
    const logger: Logger

    constructor (kernel: Request -> Response, site: Site, config: Config,
                 isFrontPage: Request -> bool, logger: Logger)
      ensures this.kernel == kernel && this.site == site && this.config == config
      ensures this.isFrontPage == isFrontPage && this.logger == logger
    {
      this.kernel := kernel;
      this.site := site;
      this.config := config;
      this.isFrontPage := isFrontPage;
      this.logger := logger;
    }

    /**
     * Leaves the event and the log alone unless this is the main request for the
     * front page; then logs the unsupported pairs' warnings and sets the
     * response to the kernel's response to the sub-request.
     */
    method CheckFrontRedirection(event: RequestEvent)
      modifies event, logger
      ensures var decision := FrontRedirect(site, config, event.isMain, isFrontPage(event.request), event.request);
        event.response == if decision.Some? then Some(kernel(decision.value)) else old(event.response)
      ensures logger.entries == old(logger.entries)
        + if event.isMain && isFrontPage(event.request) then Warnings(site, ConfiguredPairs(config)) else []
    {
      if event.isMain && isFrontPage(event.request) {
        var frontPages, warnings := CollectFrontPages(site, ConfiguredPairs(config));
        logger.entries := logger.entries + warnings;

        var request := event.request;
        var host := request.host;
        var path := site.pageFront;
        if ArrayKey(Str(host)) in frontPages && !IsEmpty(Str(frontPages[ArrayKey(Str(host))])) {
          path := frontPages[ArrayKey(Str(host))];
        }

        var subRequest := Request("GET", path, request.secure, host, request.port, map[], map[]);
        subRequest := subRequest.(headers := request.headers, cookies := request.cookies);

        var response := kernel(subRequest);
        event.SetResponse(response);
      }
    }
  }
}
