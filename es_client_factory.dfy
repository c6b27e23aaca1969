/**
 * The per-region session cache behind `ElasticsearchClientFactory` (es_client_factory.go).
 *
 * What the AWS SDK computes is an input here: the session `session.NewSession` would
 * build is passed in as `sess`, and `Credentials.IsExpired` is the predicate `isExpired`
 * sampled at the moment of the call. The reader/writer lock is not modelled: calls are
 * sequential.
 */
module EsClientFactory {
  import opened Wrappers

  type Region = string

  /** Handle of a session built by the SDK; opaque to this model. */
  datatype Session = Session(handle: nat)

  /** Temporary credentials that assume `role`, obtained through the session `base`. */
  datatype Credentials = AssumeRoleCredentials(base: Session, role: string)

  /** `aws.Config`: the region, and credentials that override the session's own when set. */
  datatype Config = Config(region: Region, credentials: Option<Credentials>)

  /** `sessionCache`: both pointers are nil in Go's zero value. */
  datatype SessionCache = SessionCache(sess: Option<Session>, conf: Option<Config>)

  /** The zero value of `sessionCache`. */
  const ZeroEntry: SessionCache := SessionCache(None, None)

  /** What `elasticsearchservice.New(sess, conf)` is built from. */
  datatype Client = Client(sess: Session, conf: Option<Config>)

  /** `Credentials.IsExpired`, as it answers at the time of a call. */
  type ExpiryCheck = Credentials -> bool

  /**
   * `elasticsearchservice.New(sc.sess, sc.conf)`. With a nil session (the zero record) the
   * SDK dereferences it and panics: None stands for that panic, the call never returns.
   */
  function ClientOf(sc: SessionCache): (c: Option<Client>)
    ensures c.None? <==> sc.sess.None?
    ensures c.Some? ==> c.value.sess == sc.sess.value && c.value.conf == sc.conf
  {
    if sc.sess.Some? then Some(Client(sc.sess.value, sc.conf)) else None
  }

  /** Every stored record holds a session, as every record `New` builds does. */
  predicate EntriesBuilt(clients: Option<map<Region, SessionCache>>)
  {
    clients.Some? ==> forall r :: r in clients.value ==> clients.value[r].sess.Some?
  }

  /** Go's `m[region]`: the stored entry, or the zero value when the key is absent. */
  function Entry(m: map<Region, SessionCache>, region: Region): (sc: SessionCache)
    ensures region in m ==> sc == m[region]
    ensures region !in m ==> sc == ZeroEntry
  {
    if region in m then m[region] else ZeroEntry
  }

  /** The eviction test: config present, credentials present, and they report expired. */
  predicate Expired(sc: SessionCache, isExpired: ExpiryCheck)
  {
    sc.conf.Some? && sc.conf.value.credentials.Some? && isExpired(sc.conf.value.credentials.value)
  }

  /** The record `New` builds for `region` from the session `sess`. */
  function NewEntry(role: string, region: Region, sess: Session): (sc: SessionCache)
    ensures sc.sess == Some(sess) && sc.conf.Some? && sc.conf.value.region == region
    ensures sc.conf.value.credentials.Some? <==> role != ""
    ensures role != "" ==> sc.conf.value.credentials == Some(AssumeRoleCredentials(sess, role))
  {
    SessionCache(Some(sess), Some(Config(region, if role != "" then Some(AssumeRoleCredentials(sess, role)) else None)))
  }

  /** Result of `cached`: the record, the found flag, and the map afterwards. */
  datatype Lookup = Lookup(entry: SessionCache, found: bool, clients: Option<map<Region, SessionCache>>)

  /** `cached(region)` on the map `clients` (None is Go's nil map). */
  function CachedSpec(clients: Option<map<Region, SessionCache>>, region: Region, isExpired: ExpiryCheck): Lookup
  {
    match clients
    case None => Lookup(ZeroEntry, false, None)
    case Some(m) =>
      var sc := Entry(m, region);
      if Expired(sc, isExpired) then Lookup(ZeroEntry, false, Some(m - {region}))
      else Lookup(sc, true, clients)
  }

  /**
   * Result of `Get`: the client (None when `Get` panics building it), the map afterwards,
   * and whether a new session was built.
   */
  datatype GetResult = GetResult(client: Option<Client>, clients: Option<map<Region, SessionCache>>, constructed: bool)

  /** `Get(region)`: a hit builds the client from the cached record; a miss builds a new one and stores it. */
  function GetSpec(role: string, clients: Option<map<Region, SessionCache>>, region: Region,
                   sess: Session, isExpired: ExpiryCheck): GetResult
  {
    var look := CachedSpec(clients, region, isExpired);
    if look.found then GetResult(ClientOf(look.entry), look.clients, false)
    else
      var m := if look.clients.Some? then look.clients.value else map[];
      var sc := NewEntry(role, region, sess);
      GetResult(ClientOf(sc), Some(m[region := sc]), true)
  }

  class ElasticsearchClientFactory {
    /** The role to assume; empty means the session's own credentials are used. */
    const role: string
    /** `clients`; None is the nil map of a fresh factory. */
    var clients: Option<map<Region, SessionCache>>
    /** How many sessions `Get` has constructed so far. */
    ghost var constructions: nat

    /** `NewElasticsearchClientFactory(role)`. */
    constructor (role: string)
      ensures this.role == role && clients == None && constructions == 0
    {
      this.role := role;
      clients := None;
      constructions := 0;
    }

    /** `New(region)`: a fresh record, with assumed-role credentials only when a role is set. */
    method New(region: Region, sess: Session) returns (sc: SessionCache)
      ensures sc == NewEntry(role, region, sess)
    {
      var config := Config(region, None);
      if role != "" {
        config := config.(credentials := Some(AssumeRoleCredentials(sess, role)));
      }
      sc := SessionCache(Some(sess), Some(config));
    }

    /** `cached(region)`: the read-locked lookup that evicts an expired record. */
    method Cached(region: Region, isExpired: ExpiryCheck) returns (sc: SessionCache, found: bool)
      modifies this`clients
      ensures Lookup(sc, found, clients) == CachedSpec(old(clients), region, isExpired)
    {
      if clients.None? {
        return ZeroEntry, false;
      }
      sc := Entry(clients.value, region);
      if sc.conf.Some? && sc.conf.value.credentials.Some? && isExpired(sc.conf.value.credentials.value) {
        clients := Some(clients.value - {region});
        return ZeroEntry, false;
      }
      found := true;
    }

    /** `Get(region)`: reuse the cached record, or build, store and use a new one. */
    method Get(region: Region, sess: Session, isExpired: ExpiryCheck) returns (client: Option<Client>)
      modifies this`clients, this`constructions
      ensures var g := GetSpec(role, old(clients), region, sess, isExpired);
        client == g.client && clients == g.clients &&
        constructions == old(constructions) + (if g.constructed then 1 else 0)
    {
      var sc, found := Cached(region, isExpired);
      if found {
        return ClientOf(sc);
      }
      if clients.None? {
        clients := Some(map[]);
      }
      sc := New(region, sess);
      clients := Some(clients.value[region := sc]);
      constructions := constructions + 1;
      client := ClientOf(sc);
    }
  }

  // Properties of the cache.

  /** `cached` on a nil map reports not-found and leaves the map nil. */
  lemma CachedOnNilMap(region: Region, isExpired: ExpiryCheck)
    ensures CachedSpec(None, region, isExpired) == Lookup(ZeroEntry, false, None)
  {
  }

  /** An expired record is deleted, and only that key: every other entry stays as it was. */
  lemma CachedEvictsExactlyTheExpiredKey(m: map<Region, SessionCache>, region: Region, isExpired: ExpiryCheck)
    requires region in m && Expired(m[region], isExpired)
    ensures var look := CachedSpec(Some(m), region, isExpired);
      !look.found && look.entry == ZeroEntry && look.clients.Some? &&
      look.clients.value.Keys == m.Keys - {region} &&
      forall r :: r in look.clients.value ==> look.clients.value[r] == m[r]
  {
  }

  /** `cached` reports found exactly when the map exists and its (possibly zero) record is not expired. */
  lemma CachedFoundIff(clients: Option<map<Region, SessionCache>>, region: Region, isExpired: ExpiryCheck)
    ensures var look := CachedSpec(clients, region, isExpired);
      look.found <==> clients.Some? && !Expired(Entry(clients.value, region), isExpired)
    ensures var look := CachedSpec(clients, region, isExpired);
      look.found ==> look.clients == clients && look.entry == Entry(clients.value, region)
  {
  }

  /**
   * As written, `cached` reports found for a region that has no entry once the map
   * exists, and returns the zero record: the zero record has no config, so it never
   * counts as expired. `Get` then hands the nil session to `elasticsearchservice.New`,
   * which panics; the map is left as it was, so every later `Get` of that region panics too.
   */
  lemma AbsentRegionIsReportedFound(role: string, m: map<Region, SessionCache>, region: Region,
                                    sess: Session, isExpired: ExpiryCheck)
    requires region !in m
    ensures CachedSpec(Some(m), region, isExpired) == Lookup(ZeroEntry, true, Some(m))
    ensures GetSpec(role, Some(m), region, sess, isExpired) == GetResult(None, Some(m), false)
  {
  }

  /** A hit neither constructs a session nor changes the map; the client comes from the stored record. */
  lemma GetHitKeepsCache(role: string, m: map<Region, SessionCache>, region: Region,
                         sess: Session, isExpired: ExpiryCheck)
    requires region in m && !Expired(m[region], isExpired)
    ensures GetSpec(role, Some(m), region, sess, isExpired) == GetResult(ClientOf(m[region]), Some(m), false)
  {
  }

  /** A miss creates the map if needed, overwrites `region` with a new record and keeps every other region. */
  lemma GetMissOverwritesOnlyRegion(role: string, clients: Option<map<Region, SessionCache>>, region: Region,
                                    sess: Session, isExpired: ExpiryCheck)
    requires !CachedSpec(clients, region, isExpired).found
    ensures var g := GetSpec(role, clients, region, sess, isExpired);
      g.constructed && g.clients.Some? && g.client.Some? && g.client == ClientOf(NewEntry(role, region, sess)) &&
      g.clients.value.Keys == (if clients.Some? then clients.value.Keys else {}) + {region} &&
      g.clients.value[region] == NewEntry(role, region, sess) &&
      forall r :: r in g.clients.value && r != region ==> g.clients.value[r] == clients.value[r]
  {
  }

  /** An expired record is replaced by a freshly built one; the other regions keep theirs. */
  lemma ExpiredEntryIsRebuilt(role: string, m: map<Region, SessionCache>, region: Region,
                              sess: Session, isExpired: ExpiryCheck)
    requires region in m && Expired(m[region], isExpired)
    ensures GetSpec(role, Some(m), region, sess, isExpired)
         == GetResult(ClientOf(NewEntry(role, region, sess)), Some(m[region := NewEntry(role, region, sess)]), true)
  {
    assert (m - {region})[region := NewEntry(role, region, sess)] == m[region := NewEntry(role, region, sess)];
  }

  /**
   * Once `Get(region)` has run, a second `Get(region)` whose credentials are not expired
   * reuses the same record: same client, map unchanged, no new session.
   */
  lemma SecondGetReusesSession(role: string, clients: Option<map<Region, SessionCache>>, region: Region,
                               s1: Session, e1: ExpiryCheck, s2: Session, e2: ExpiryCheck)
    requires var g := GetSpec(role, clients, region, s1, e1);
      !Expired(Entry(g.clients.value, region), e2)
    ensures var g1 := GetSpec(role, clients, region, s1, e1);
      GetSpec(role, g1.clients, region, s2, e2) == GetResult(g1.client, g1.clients, false)
  {
    var g1 := GetSpec(role, clients, region, s1, e1);
    var look := CachedSpec(clients, region, e1);
    if look.found {
      assert g1.client == ClientOf(Entry(g1.clients.value, region));
    } else {
      assert Entry(g1.clients.value, region) == NewEntry(role, region, s1);
    }
  }

  /** Without a role, a record carries no credentials of its own and is never evicted as expired. */
  lemma NoRoleNeverExpires(region: Region, sess: Session, isExpired: ExpiryCheck)
    ensures NewEntry("", region, sess).conf.value.credentials == None
    ensures !Expired(NewEntry("", region, sess), isExpired)
  {
  }

  /**
   * While every stored record holds a session, `Get` panics exactly for a region absent
   * from an existing map, and the records it leaves behind all hold a session.
   */
  lemma GetPanicsExactlyOnAbsentRegion(role: string, clients: Option<map<Region, SessionCache>>, region: Region,
                                       sess: Session, isExpired: ExpiryCheck)
    requires EntriesBuilt(clients)
    ensures var g := GetSpec(role, clients, region, sess, isExpired);
      (g.client.None? <==> clients.Some? && region !in clients.value) && EntriesBuilt(g.clients)
  {
  }
}
