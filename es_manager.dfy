/**
 * `ElasticsearchManager` (es_manager.go): lists the domains of a region, resolves a
 * domain to its endpoint, builds a signing reverse proxy for it and caches the proxy
 * per (region, domain).
 *
 * The answers of `ListDomainNames` and `DescribeElasticsearchDomain` are inputs, as are
 * the inputs of the client factory's `Get` (see EsClientFactory) and the clock. The
 * forwarding engine, the SigV4 algorithm and the body stream are not modelled: a
 * signature is recorded as the data it is computed over.
 */
module EsManager {
  import opened Wrappers
  import opened StringSort
  import opened EsClientFactory

  newtype byte = x: int | 0 <= x < 256

  // ---------------------------------------------------------------- errors

  /** An error returned by the SDK: an `awserr.Error` carries a code; any other error does not. */
  datatype ProviderError = AwsError(code: string, message: string) | OtherError(message: string)

  /**
   * How a manager call fails: the two named errors, a provider error returned unchanged,
   * or `Panicked` when the client factory's `Get` panics (the call never returns).
   */
  datatype Error =
    | ErrDomainNotFound
    | ErrInvalidDomainName
    | Provider(cause: ProviderError)
    | Panicked

  const ResourceNotFoundCode: string := "ResourceNotFoundException"
  const ValidationCode: string := "ValidationException"

  // ---------------------------------------------------------------- ListDomains

  /** One element of `ListDomainNamesOutput.DomainNames`. */
  datatype DomainInfo = DomainInfo(domainName: string)

  /** The names in the order the provider lists them. */
  function DomainNames(infos: seq<DomainInfo>): (names: seq<string>)
    ensures |names| == |infos|
    ensures forall k :: 0 <= k < |infos| ==> names[k] == infos[k].domainName
  {
    seq(|infos|, k requires 0 <= k < |infos| => infos[k].domainName)
  }

  // ---------------------------------------------------------------- endpoint resolution

  /** `ElasticsearchDomainStatus`: the public endpoint and the map of other endpoints (key "vpc"). */
  datatype DomainStatus = DomainStatus(endpoint: Option<string>, endpoints: Option<map<string, Option<string>>>)

  /** `DescribeElasticsearchDomainOutput`. */
  datatype DescribeOutput = DescribeOutput(domainStatus: Option<DomainStatus>)

  /** The VPC endpoint, when the map exists and its "vpc" entry is a non-nil string. */
  function VpcEndpoint(status: DomainStatus): (host: Option<string>)
    ensures host.Some? <==> status.endpoints.Some? && "vpc" in status.endpoints.value
                            && status.endpoints.value["vpc"].Some?
    ensures host.Some? ==> host == status.endpoints.value["vpc"]
  {
    if status.endpoints.Some? && "vpc" in status.endpoints.value then status.endpoints.value["vpc"] else None
  }

  /**
   * The host a proxy targets, "" when there is none: the public endpoint whenever it is
   * set (even to ""), and the VPC endpoint only when the public one is nil.
   */
  function EndpointHost(status: DomainStatus): (host: string)
    ensures status.endpoint.Some? ==> host == status.endpoint.value
    ensures status.endpoint.None? && VpcEndpoint(status).Some? ==> host == VpcEndpoint(status).value
    ensures status.endpoint.None? && VpcEndpoint(status).None? ==> host == ""
  {
    match status.endpoint
    case Some(h) => h
    case None => if VpcEndpoint(status).Some? then VpcEndpoint(status).value else ""
  }

  /** The error `NewProxy` returns for a failed describe call. */
  function DescribeError(e: ProviderError): (r: Error)
    ensures r == ErrDomainNotFound <==> e.AwsError? && e.code == ResourceNotFoundCode
    ensures r == ErrInvalidDomainName <==> e.AwsError? && e.code == ValidationCode
    ensures r.Provider? <==> !(e.AwsError? && e.code in {ResourceNotFoundCode, ValidationCode})
    ensures r.Provider? ==> r.cause == e
  {
    if e.AwsError? && e.code == ResourceNotFoundCode then ErrDomainNotFound
    else if e.AwsError? && e.code == ValidationCode then ErrInvalidDomainName
    else Provider(e)
  }

  /** The decision part of `NewProxy`: the endpoint to proxy to, or the error to return. */
  function ResolveEndpoint(describe: Result<DescribeOutput, ProviderError>): (r: Result<string, Error>)
    ensures r.Success? <==> describe.Success? && describe.value.domainStatus.Some?
                            && EndpointHost(describe.value.domainStatus.value) != ""
    ensures r.Success? ==> r.value == EndpointHost(describe.value.domainStatus.value) && r.value != ""
    ensures describe.Failure? ==> r == Failure(DescribeError(describe.error))
    ensures describe.Success? && r.Failure? ==> r.error == ErrDomainNotFound
  {
    match describe
    case Failure(e) => Failure(DescribeError(e))
    case Success(output) =>
      if output.domainStatus.None? then Failure(ErrDomainNotFound)
      else
        var host := EndpointHost(output.domainStatus.value);
        if host == "" then Failure(ErrDomainNotFound) else Success(host)
  }

  /** A set public endpoint decides the outcome: the VPC endpoint is never consulted then. */
  lemma PublicEndpointTakesPrecedence(status: DomainStatus, vpc: map<string, Option<string>>)
    requires status.endpoint.Some?
    ensures var r := ResolveEndpoint(Success(DescribeOutput(Some(status))));
      r == ResolveEndpoint(Success(DescribeOutput(Some(status.(endpoints := Some(vpc))))))
      && r == (if status.endpoint.value == "" then Failure(ErrDomainNotFound) else Success(status.endpoint.value))
  {
  }

  /** Every failure the resolver reports is one of the two named errors, or a provider error it did not recognise. */
  lemma ResolvedErrorsAreClassified(describe: Result<DescribeOutput, ProviderError>)
    requires ResolveEndpoint(describe).Failure?
    ensures var err := ResolveEndpoint(describe).error;
      err.Provider? ==> describe.Failure? && err.cause == describe.error
                        && !(describe.error.AwsError? && describe.error.code in {ResourceNotFoundCode, ValidationCode})
  {
  }

  // ---------------------------------------------------------------- the proxy

  /** The body of an inbound request, as `ioutil.ReadAll` would see it. */
  datatype Body = Readable(data: seq<byte>) | Unreadable

  /** The part of the rewritten request the signature covers. */
  datatype Target = Target(verb: string, scheme: string, host: string, urlHost: string, path: string,
                           query: string, header: map<string, seq<string>>)

  /** A SigV4 signature: for service `service` in `region`, at `signedAt`, over `target` and `payload`. */
  datatype Signature = Signature(service: string, region: string, signedAt: int,
                                 payload: Option<seq<byte>>, signer: Client, target: Target)

  /** The signing time is `time.Now()` minus ten seconds, in nanoseconds. */
  const SigningBackdate: int := 10 * 1_000_000_000

  /** The payload handed to the signer: nil when the request has no body. */
  function Payload(body: Option<Body>): (p: Option<seq<byte>>)
    requires body != Some(Unreadable)
    ensures p.Some? <==> body.Some?
    ensures p.Some? ==> body.value == Readable(p.value)
  {
    if body.Some? then Some(body.value.data) else None
  }

  /** `http.Request`; the signature headers the signer adds are kept in `signature`. */
  class Request {
    var verb: string         // Method
    var header: map<string, seq<string>>
    var host: string
    var scheme: string       // URL.Scheme
    var urlHost: string      // URL.Host
    var path: string         // URL.Path
    var query: string        // URL.RawQuery
    var body: Option<Body>
    var bodyClosed: bool
    var signature: Option<Signature>

    constructor (verb: string, header: map<string, seq<string>>, host: string, path: string, query: string,
                 body: Option<Body>)
      ensures this.verb == verb && this.header == header && this.host == host && this.path == path
      ensures this.query == query
      ensures this.body == body && scheme == "" && urlHost == "" && !bodyClosed && signature == None
    {
      this.verb, this.header, this.host, this.path, this.query, this.body := verb, header, host, path, query, body;
      scheme, urlHost, bodyClosed, signature := "", "", false, None;
    }

    function WireTarget(): Target
      reads this
    {
      Target(verb, scheme, host, urlHost, path, query, header)
    }
  }

  /** The `httputil.ReverseProxy` that `NewProxy` builds, with what its `Director` captures. */
  class Proxy {
    const region: string
    /** `endpointHost`; never empty. */
    const endpoint: string
    /** The client whose credentials `v4.NewSigner` signs with. */
    const client: Client

    constructor (region: string, endpoint: string, client: Client)
      requires endpoint != ""
      ensures this.region == region && this.endpoint == endpoint && this.client == client
    {
      this.region, this.endpoint, this.client := region, endpoint, client;
    }

    /**
     * `Director`: rewrite the request towards the endpoint, read the body, then sign.
     * When the body cannot be read it returns before signing: the request is forwarded
     * rewritten but unsigned.
     */
    method Director(req: Request, now: int)
      modifies req
      ensures req.header == map[] && req.host == "" && req.scheme == "https" && req.urlHost == endpoint
      ensures req.verb == old(req.verb) && req.path == old(req.path) && req.query == old(req.query)
      ensures req.body == old(req.body)
      ensures req.bodyClosed == (old(req.bodyClosed) || req.body.Some?)
      ensures req.body == Some(Unreadable) ==> req.signature == None
      ensures req.body != Some(Unreadable) ==>
        req.signature == Some(Signature("es", region, now - SigningBackdate, Payload(req.body), client, req.WireTarget()))
    {
      req.header := map[];
      req.signature := None;
      req.host := "";
      req.scheme := "https";
      req.urlHost := endpoint;

      var payload: Option<seq<byte>> := None;
      if req.body.Some? {
        req.bodyClosed := true;
        match req.body.value
        case Unreadable =>
          return;
        case Readable(data) =>
          payload := Some(data);
      }

      req.signature := Some(Signature("es", region, now - SigningBackdate, payload, client, req.WireTarget()));
    }
  }

  // ---------------------------------------------------------------- the manager

  /** `elasticsearchDomain`: the key of the proxy cache. */
  datatype DomainKey = DomainKey(region: string, domain: string)

  class ElasticsearchManager {
    const clientFactory: ElasticsearchClientFactory
    /** `proxies`; None is the nil map of a fresh manager. */
    var proxies: Option<map<DomainKey, Proxy>>

    /** Every cached proxy signs for its key's region and targets a non-empty endpoint. */
    ghost predicate Valid()
      reads this
    {
      proxies.Some? ==>
        forall k :: k in proxies.value ==> proxies.value[k].region == k.region && proxies.value[k].endpoint != ""
    }

    /** `NewElasticsearchManager(rootSession, role)`; the root session is ignored. */
    constructor (role: string)
      ensures Valid() && fresh(clientFactory) && proxies == None
      ensures clientFactory.role == role && clientFactory.clients == None && clientFactory.constructions == 0
    {
      clientFactory := new ElasticsearchClientFactory(role);
      proxies := None;
    }

    /** `ListDomains(region)`: the provider's domain names in ascending order, or its error unchanged. */
    method ListDomains(region: Region, sess: Session, isExpired: ExpiryCheck,
                       listing: Result<seq<DomainInfo>, ProviderError>)
      returns (r: Result<seq<string>, Error>)
      modifies clientFactory
      ensures var g := GetSpec(clientFactory.role, old(clientFactory.clients), region, sess, isExpired);
        clientFactory.clients == g.clients &&
        clientFactory.constructions == old(clientFactory.constructions) + (if g.constructed then 1 else 0)
      ensures var g := GetSpec(clientFactory.role, old(clientFactory.clients), region, sess, isExpired);
        g.client.None? ==> r == Failure(Panicked)
      ensures var g := GetSpec(clientFactory.role, old(clientFactory.clients), region, sess, isExpired);
        g.client.Some? && listing.Failure? ==> r == Failure(Provider(listing.error))
      ensures var g := GetSpec(clientFactory.role, old(clientFactory.clients), region, sess, isExpired);
        g.client.Some? && listing.Success? ==>
          r.Success? && Sorted(r.value) && multiset(r.value) == multiset(DomainNames(listing.value)) &&
          r.value == SortStrings(DomainNames(listing.value))
    {
      var client := clientFactory.Get(region, sess, isExpired);
      if client.None? {
        return Failure(Panicked);
      }
      if listing.Failure? {
        return Failure(Provider(listing.error));
      }
      var infos := listing.value;
      var domains: seq<string> := [];
      var i := 0;
      while i < |infos|
        invariant 0 <= i <= |infos|
        invariant domains == DomainNames(infos[..i])
      {
        domains := domains + [infos[i].domainName];
        i := i + 1;
      }
      assert infos[..i] == infos;
      domains := SortStrings(domains);
      r := Success(domains);
    }

    /** `NewProxy(region, domain)`: resolve the endpoint and build a proxy that signs with the region's client. */
    method NewProxy(region: Region, domain: string, sess: Session, isExpired: ExpiryCheck,
                    describe: Result<DescribeOutput, ProviderError>)
      returns (r: Result<Proxy, Error>)
      modifies clientFactory
      ensures var g := GetSpec(clientFactory.role, old(clientFactory.clients), region, sess, isExpired);
        clientFactory.clients == g.clients &&
        clientFactory.constructions == old(clientFactory.constructions) + (if g.constructed then 1 else 0) &&
        (g.client.None? ==> r == Failure(Panicked)) &&
        (g.client.Some? ==>
          (r.Success? <==> ResolveEndpoint(describe).Success?) &&
          (r.Success? ==> fresh(r.value) && r.value.client == g.client.value && r.value.region == region
                          && r.value.endpoint == ResolveEndpoint(describe).value) &&
          (r.Failure? ==> r.error == ResolveEndpoint(describe).error))
    {
      var client := clientFactory.Get(region, sess, isExpired);
      if client.None? {
        return Failure(Panicked);
      }
      var endpoint := ResolveEndpoint(describe);
      if endpoint.Failure? {
        return Failure(endpoint.error);
      }
      var proxy := new Proxy(region, endpoint.value, client.value);
      r := Success(proxy);
    }

    /** `cachedProxy(region, domain)`: the cached proxy for the key, if any. */
    method CachedProxy(region: Region, domain: string) returns (p: Option<Proxy>)
      ensures p.Some? <==> proxies.Some? && DomainKey(region, domain) in proxies.value
      ensures p.Some? ==> p.value == proxies.value[DomainKey(region, domain)]
    {
      if proxies.None? {
        return None;
      }
      var key := DomainKey(region, domain);
      if key in proxies.value {
        p := Some(proxies.value[key]);
      } else {
        p := None;
      }
    }

    /**
     * `GetProxy(region, domain)`: the cached proxy on a hit, without consulting the
     * provider; on a miss a new proxy is built and stored under the key, and nothing is
     * stored when building fails or `Get` panics (the map may only have been created).
     */
    method GetProxy(region: Region, domain: string, sess: Session, isExpired: ExpiryCheck,
                    describe: Result<DescribeOutput, ProviderError>)
      returns (r: Result<Proxy, Error>)
      requires Valid()
      modifies this, clientFactory
      ensures Valid()
      ensures var key := DomainKey(region, domain);
        old(proxies).Some? && key in old(proxies).value ==>
          r == Success(old(proxies).value[key]) && proxies == old(proxies) && unchanged(clientFactory)
      ensures var key := DomainKey(region, domain);
        var before := if old(proxies).Some? then old(proxies).value else map[];
        key !in before ==>
          var g := GetSpec(clientFactory.role, old(clientFactory.clients), region, sess, isExpired);
          clientFactory.clients == g.clients &&
          clientFactory.constructions == old(clientFactory.constructions) + (if g.constructed then 1 else 0) &&
          (r.Failure? ==> proxies == Some(before)) &&
          (g.client.None? ==> r == Failure(Panicked)) &&
          (g.client.Some? ==>
            (r.Success? <==> ResolveEndpoint(describe).Success?) &&
            (r.Success? ==> fresh(r.value) && r.value.client == g.client.value && r.value.region == region &&
                            r.value.endpoint == ResolveEndpoint(describe).value &&
                            proxies == Some(before[key := r.value])) &&
            (r.Failure? ==> r.error == ResolveEndpoint(describe).error))
    {
      var cached := CachedProxy(region, domain);
      if cached.Some? {
        return Success(cached.value);
      }
      var key := DomainKey(region, domain);
      if proxies.None? {
        proxies := Some(map[]);
      }
      r := NewProxy(region, domain, sess, isExpired, describe);
      if r.Failure? {
        return;
      }
      proxies := Some(proxies.value[key := r.value]);
    }
  }

  // ---------------------------------------------------------------- scenarios

  /** A second `GetProxy` for the same key returns the very proxy the first one returned. */
  method GetProxyTwiceReturnsSameProxy(m: ElasticsearchManager, region: Region, domain: string,
                                       s1: Session, e1: ExpiryCheck, d1: Result<DescribeOutput, ProviderError>,
                                       s2: Session, e2: ExpiryCheck, d2: Result<DescribeOutput, ProviderError>)
    returns (r1: Result<Proxy, Error>, r2: Result<Proxy, Error>)
    requires m.Valid()
    modifies m, m.clientFactory
    ensures r1.Success? ==> r2 == r1
  {
    r1 := m.GetProxy(region, domain, s1, e1, d1);
    r2 := m.GetProxy(region, domain, s2, e2, d2);
  }

  /** On a fresh factory, `ListDomains` on the listing ["zeta", "alpha", "mu"] returns ["alpha", "mu", "zeta"]. */
  method ListDomainsSortsExample(m: ElasticsearchManager, region: Region, sess: Session, isExpired: ExpiryCheck)
    returns (r: Result<seq<string>, Error>)
    requires m.clientFactory.clients == None
    modifies m.clientFactory
    ensures r == Success(["alpha", "mu", "zeta"])
  {
    var listing := [DomainInfo("zeta"), DomainInfo("alpha"), DomainInfo("mu")];
    r := m.ListDomains(region, sess, isExpired, Success(listing));
    assert DomainNames(listing) == ["zeta", "alpha", "mu"];
    SortStringsExample();
  }

  /**
   * A domain that only has a VPC endpoint: the proxy targets it over https, the original
   * host and headers are gone, and the request is signed for the region ten seconds in the past.
   */
  method VpcDomainEndToEnd(m: ElasticsearchManager, sess: Session, isExpired: ExpiryCheck,
                           req: Request, now: int)
    returns (r: Result<Proxy, Error>)
    requires m.Valid() && m.proxies == None && m.clientFactory.clients == None
    requires req.body.Some? && req.body.value.Readable?
    modifies m, m.clientFactory, req
    ensures r.Success? && r.value.endpoint == "vpc-logs-prod.example-provider.net"
    ensures req.urlHost == "vpc-logs-prod.example-provider.net" && req.scheme == "https"
    ensures req.host == "" && req.header == map[]
    ensures req.signature.Some? && req.signature.value.region == "us-east-1"
    ensures req.signature.value.signedAt == now - SigningBackdate
    ensures req.body == old(req.body) && req.signature.value.payload == Some(old(req.body).value.data)
  {
    var status := DomainStatus(None, Some(map["vpc" := Some("vpc-logs-prod.example-provider.net")]));
    r := m.GetProxy("us-east-1", "logs-prod", sess, isExpired, Success(DescribeOutput(Some(status))));
    r.value.Director(req, now);
  }

  /**
   * Once the factory holds a session for one region, the first `GetProxy` for a domain of
   * another region panics in the factory's `Get`, stores no proxy, and leaves the session
   * map as it was, so the same call panics again.
   */
  method OtherRegionPanicsForGood(m: ElasticsearchManager, cached: Region, region: Region, domain: string,
                                  s1: Session, d1: Result<DescribeOutput, ProviderError>,
                                  s2: Session, d2: Result<DescribeOutput, ProviderError>,
                                  isExpired: ExpiryCheck)
    returns (r1: Result<Proxy, Error>, r2: Result<Proxy, Error>)
    requires m.Valid() && m.proxies == None
    requires m.clientFactory.clients.Some? && m.clientFactory.clients.value.Keys == {cached} && region != cached
    modifies m, m.clientFactory
    ensures r1 == Failure(Panicked) && r2 == Failure(Panicked)
    ensures m.proxies == Some(map[]) && m.clientFactory.clients == old(m.clientFactory.clients)
  {
    r1 := m.GetProxy(region, domain, s1, isExpired, d1);
    r2 := m.GetProxy(region, domain, s2, isExpired, d2);
  }
}
