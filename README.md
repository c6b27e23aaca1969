# caddy-awses: session cache and signing proxy cache, modelled in Dafny

This project models the core of `caddy-awses`: the two Go components that give callers signed HTTP access to AWS Elasticsearch Service domains.

- `ElasticsearchClientFactory` (`es_client_factory.go`) keeps one session record per region. `cached` looks up a region and evicts a record whose assumed-role credentials report expired. `Get` reuses the record on a hit. On a miss it creates the map if needed, builds a new record with `New` and overwrites the region's entry.
- `ElasticsearchManager` (`es_manager.go`) has three jobs:
  - `ListDomains` returns a region's domain names in ascending order.
  - `NewProxy` maps the describe-domain answer to an endpoint or an error. It then builds a reverse proxy. The proxy's `Director` rewrites each request towards that endpoint and signs it.
  - `GetProxy` caches proxies per (region, domain).

Files:

- `wrappers.dfy`: `Option` (a nil-able pointer) and `Result` (Go's value-or-error return).
- `string_sort.dfy` (module `StringSort`): Go's string order and `sort.Strings`. The sort is an insertion sort, proved to return a sorted permutation. Sorted permutations are proved unique, so any correct sort gives the same list.
- `es_client_factory.dfy` (module `EsClientFactory`):
  - the records, written as datatypes;
  - the transitions of `cached` and `Get`, written as functions (`CachedSpec`, `GetSpec`);
  - the class `ElasticsearchClientFactory`, whose methods change its `clients` map and are proved against those functions;
  - lemmas about the transitions.
- `es_manager.dfy` (module `EsManager`):
  - the error taxonomy;
  - endpoint resolution, written as pure functions;
  - the classes `Request` and `Proxy`, with `Director` changing the request in place;
  - the class `ElasticsearchManager` with its `proxies` map;
  - four scenario methods: a repeated `GetProxy`, the sorted listing `["zeta", "alpha", "mu"]`, a VPC-only domain end to end, and a second region that panics on every call.

The AWS SDK is represented by its answers. These are parameters of the model:

- the session `session.NewSession` would build (`sess`);
- what `Credentials.IsExpired` answers at the time of a call (`isExpired`);
- the result of `ListDomainNames` (`listing`) and of `DescribeElasticsearchDomain` (`describe`);
- the clock (`now`, in nanoseconds).

Go's nil maps are `None`; a map that exists, even an empty one, is `Some(m)`.

One behaviour is kept exactly as written in `cached`. Once the map exists, a region with no entry is read as the zero record. The zero record has no config, so it never counts as expired, and `cached` reports it as found. `Get` then passes the record's nil session to `elasticsearchservice.New`, which dereferences it and panics. The model writes that panic as a `Get` that returns no client (`ClientOf`). `ListDomains`, `NewProxy` and `GetProxy` then end in `Panicked`, with no result. The session map is not changed on this path, so once one region is cached, every other region panics on every call. `AbsentRegionIsReportedFound`, `GetPanicsExactlyOnAbsentRegion` and `OtherRegionPanicsForGood` state this.

In Go, the two exported errors carry the messages "AWS ES domain not found" and "The provided AWS ES domain is invalid". The model's `Error` names them `ErrDomainNotFound` and `ErrInvalidDomainName`. It adds `Provider` for an unmapped SDK error passed through unchanged, and `Panicked` for a call that panics instead of returning.

## Model

| member | source | states |
|---|---|---|
| StringSort.LessEqReflexive | es_manager.go:56 | every string is at most itself in Go's string order |
| StringSort.LessEqTotal | es_manager.go:56 | any two strings are comparable in Go's string order |
| StringSort.LessEqAntisymmetric | es_manager.go:56 | two strings that are each at most the other are equal |
| StringSort.LessEqTransitive | es_manager.go:56 | the string order is transitive |
| StringSort.Insert | es_manager.go:56 | inserting into a sorted list keeps it sorted and adds exactly that one string |
| StringSort.SortStrings | es_manager.go:56 | `sort.Strings` returns the same multiset of strings in ascending order |
| StringSort.SortedPermutationUnique | es_manager.go:56 | two sorted arrangements of the same strings are identical |
| StringSort.SortStringsIsTheSortedPermutation | es_manager.go:56 | the sort's result is the unique sorted permutation of its input |
| StringSort.SortStringsIdempotent | es_manager.go:56 | sorting a sorted list changes nothing |
| StringSort.SortStringsExample | es_manager.go:52-57 | ["zeta", "alpha", "mu"] sorts to ["alpha", "mu", "zeta"] |
| EsClientFactory.ClientOf | es_client_factory.go:53-56 | a client is built exactly when the record holds a session, from that session and config; with the nil session of the zero record the SDK panics |
| EsClientFactory.Entry | es_client_factory.go:79 | reading a region yields its stored record, or the zero record when the key is absent |
| EsClientFactory.NewEntry | es_client_factory.go:33-48 | a new record holds the session and the region's config; the config has credentials exactly when a role is set, and these assume that role through that session |
| EsClientFactory.ElasticsearchClientFactory.constructor | es_client_factory.go:26-30 | a new factory keeps the role and has a nil map |
| EsClientFactory.ElasticsearchClientFactory.New | es_client_factory.go:33-48 | `New` builds the config, attaches assumed-role credentials only for a non-empty role, and returns the record `NewEntry` describes |
| EsClientFactory.ElasticsearchClientFactory.Cached | es_client_factory.go:71-85 | `cached` returns the record, the found flag and the new map exactly as `CachedSpec` gives them |
| EsClientFactory.ElasticsearchClientFactory.Get | es_client_factory.go:51-69 | `Get` returns the client, or no client when it panics, and leaves the map `GetSpec` gives; the construction counter grows by one exactly on a miss |
| EsClientFactory.CachedOnNilMap | es_client_factory.go:75-77 | on a nil map `cached` reports not found, returns the zero record and leaves the map nil |
| EsClientFactory.CachedEvictsExactlyTheExpiredKey | es_client_factory.go:80-83 | an expired record is deleted and reported not found; every other key keeps its record |
| EsClientFactory.CachedFoundIff | es_client_factory.go:75-84 | found holds exactly when the map exists and the region's record, zero or stored, is not expired; then the map is unchanged and that record is returned |
| EsClientFactory.AbsentRegionIsReportedFound | es_client_factory.go:53-56 | for a region absent from an existing map, `cached` reports found with the zero record, and `Get` panics on its nil session without constructing one or changing the map |
| EsClientFactory.GetHitKeepsCache | es_client_factory.go:53-56 | a hit returns the client of the stored record, constructs nothing and leaves the map unchanged |
| EsClientFactory.GetMissOverwritesOnlyRegion | es_client_factory.go:58-68 | a miss creates the map if needed, always constructs, stores the new record under the region and keeps every other region's record |
| EsClientFactory.ExpiredEntryIsRebuilt | es_client_factory.go:51-69 | an expired record is replaced by a freshly built one, with a construction |
| EsClientFactory.SecondGetReusesSession | es_client_factory.go:51-69 | after a `Get`, a second `Get` of the same region whose record has not expired returns the same client, constructs nothing and changes nothing |
| EsClientFactory.GetPanicsExactlyOnAbsentRegion | es_client_factory.go:51-84 | while every stored record holds a session, `Get` panics exactly when the map exists and lacks the region, and every record it leaves holds a session |
| EsClientFactory.NoRoleNeverExpires | es_client_factory.go:40-42 | without a role a record carries no credentials and is never evicted as expired |
| EsManager.DomainNames | es_manager.go:52-55 | the collected names are the listed domains' names, in listing order |
| EsManager.VpcEndpoint | es_manager.go:81-83 | the VPC endpoint exists exactly when the endpoints map exists and has a non-nil "vpc" entry |
| EsManager.EndpointHost | es_manager.go:77-84 | the public endpoint is used whenever it is set, even when empty; otherwise the VPC endpoint; otherwise "" |
| EsManager.DescribeError | es_manager.go:64-72 | `ResourceNotFoundException` maps to `ErrDomainNotFound` and `ValidationException` to `ErrInvalidDomainName`, each if and only if; every other error is returned unchanged |
| EsManager.ResolveEndpoint | es_manager.go:63-87 | it succeeds exactly when describe succeeds with a domain status whose selected host is non-empty, and returns that host; a describe error is mapped; a nil status or an empty host is `ErrDomainNotFound` |
| EsManager.PublicEndpointTakesPrecedence | es_manager.go:78-87 | when the public endpoint is set, the endpoints map does not affect the outcome; an empty public endpoint is `ErrDomainNotFound` |
| EsManager.ResolvedErrorsAreClassified | es_manager.go:64-75 | a provider error reaches the caller only when describe failed with exactly that error and its code is neither of the two mapped codes |
| EsManager.Payload | es_manager.go:101-111 | the signer is given the body's bytes when there is a body, and nil when there is none |
| EsManager.Proxy.constructor | es_manager.go:88-92 | a proxy captures the region, the non-empty endpoint and the client it signs with |
| EsManager.Proxy.Director | es_manager.go:93-116 | `Director` clears headers and signatures, blanks the host, sets scheme https and the endpoint as URL host, and leaves the method, path, query and body as they were. It closes a present body. If the body cannot be read, the request stays unsigned. Otherwise it is signed for service "es" and the proxy's region at now minus 10 s, over the rewritten request and the body bytes |
| EsManager.ElasticsearchManager.constructor | es_manager.go:37-43 | a new manager has a fresh factory with the role, and no proxy map |
| EsManager.ElasticsearchManager.ListDomains | es_manager.go:45-58 | when `Get` panics the call ends in `Panicked`. Otherwise a listing error is returned unchanged with no list, and a listing is returned as its names sorted ascending, as a permutation. The factory changes as `Get` does |
| EsManager.ElasticsearchManager.NewProxy | es_manager.go:60-121 | when `Get` panics the call ends in `Panicked`. Otherwise it succeeds exactly when `ResolveEndpoint` does. On success it returns a new proxy for the region and the resolved endpoint that signs with the client `Get` returned. Otherwise it returns the resolver's error |
| EsManager.ElasticsearchManager.CachedProxy | es_manager.go:152-161 | a proxy is returned exactly when the map exists and holds the key, and it is the stored one |
| EsManager.ElasticsearchManager.GetProxy | es_manager.go:123-150 | a hit returns the stored proxy and changes neither the map nor the factory. A miss creates the map and calls `Get`; when `Get` panics the call ends in `Panicked`. Otherwise it resolves the endpoint. On success it stores the new proxy under (region, domain) and leaves other keys unchanged; on any failure it stores nothing. Every cached proxy signs for its key's region and has a non-empty endpoint |
| EsManager.GetProxyTwiceReturnsSameProxy | es_manager.go:123-150 | once `GetProxy` has succeeded, a second call for the same key returns the identical proxy |
| EsManager.ListDomainsSortsExample | es_manager.go:45-58 | on a fresh factory, the listing ["zeta", "alpha", "mu"] is returned as ["alpha", "mu", "zeta"] |
| EsManager.VpcDomainEndToEnd | es_manager.go:77-114 | on a fresh manager, for a domain with only a VPC endpoint, `GetProxy` succeeds. The rewritten request targets that endpoint over https without the original host or headers. It is signed for us-east-1 at now minus 10 s over its body |
| EsManager.OtherRegionPanicsForGood | es_manager.go:123-150 | once the factory holds one region, `GetProxy` for another region panics, stores no proxy and leaves the session map unchanged, so the next call panics again |

## Left out

- The reader/writer locks are not modelled, and calls are sequential. As a result, the re-check of the proxy map under the write lock (es_manager.go:140) cannot find the key, and the model goes straight to `NewProxy`. The race of deleting under a read lock (es_client_factory.go:72-82) is not modelled either.
- SDK calls are not modelled; their results are inputs. This covers `session.NewSession`, `session.Must` and its panic, `stscreds.NewCredentials`, `ListDomainNames` and `DescribeElasticsearchDomain`. `elasticsearchservice.New` is represented by the session and config it is given (`Client`). Credential expiry is whatever `isExpired` answers at the call.
- SigV4 signing is represented by the data it covers: service, region, time, body bytes, the signing client and the rewritten request. Signature headers are kept in `Request.signature` instead of the header map. `DisableRequestBodyOverwrite` (es_manager.go:90) is not modelled, so the model says nothing about which body the transport forwards.
- The `httputil.ReverseProxy` forwarding engine and the no-op `ModifyResponse` (es_manager.go:117-119) are network plumbing and are not modelled.
- Reading the body stream is an outcome: `Readable(bytes)` or `Unreadable`. Closing it is recorded in `bodyClosed`.
- `time.Now()` is the parameter `now`, in nanoseconds.
- Dereferencing the nil `*domain.DomainName` pointer (es_manager.go:54) is not modelled. Domain names are plain strings.
- `NewElasticsearchManager` ignores its `rootSession` argument, so the model's constructor takes only the role. The factory, which the Go manager holds by value in its `ClientFactory` field, is a separate object that only the manager uses.
- `sort.Strings` compares bytes. The model compares characters, which gives the same order for well-formed UTF-8. The model's sort is an insertion sort, not Go's algorithm; the result is the same because sorted permutations are unique.
