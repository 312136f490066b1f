/** The GCP resources kubemci manages, and the API calls it makes on them. */
module Cloud {
  import opened Prelude
  import opened Names

  datatype Kind =
    | HealthChecks | BackendServices | UrlMaps | HttpProxies | HttpsProxies
    | SslCertificates | ForwardingRules | Firewalls

  /** A self link. It is determined by kind and name; `NoLink` is Go's "". */
  datatype Link = NoLink | SelfLink(kind: Kind, name: string)

  /** A record as the cloud keeps it: the fields a client sets, and the
      output-only ones (id, timestamp and so on; of these only the fingerprint
      matters to the code). The name is the key it is stored under. */
  datatype Stored<T> = Stored(spec: T, fingerprint: string)

  datatype HttpCheck = HttpCheck(port: Port, requestPath: string, proxyHeader: string)

  datatype HealthCheck = HealthCheck(
    description: string,
    checkIntervalSec: int,
    timeoutSec: int,
    healthyThreshold: int,
    unhealthyThreshold: int,
    checkType: string,
    kind: string,
    http: Option<HttpCheck>,
    https: Option<HttpCheck>)

  datatype BackendRef = BackendRef(group: string, balancingMode: string, maxRatePerInstance: real, capacityScaler: real)

  datatype BackendService = BackendService(
    description: string,
    protocol: string,
    healthChecks: seq<Link>,
    port: Port,
    portName: string,
    backends: seq<BackendRef>,
    affinityCookieTtlSec: int,
    cdnPolicy: Option<string>,
    connectionDraining: Option<int>,
    enableCdn: bool,
    loadBalancingScheme: string,
    sessionAffinity: string,
    timeoutSec: int)

  datatype HostRule = HostRule(hosts: seq<string>, pathMatcher: string)

  datatype PathRule = PathRule(paths: seq<string>, service: Link)

  datatype PathMatcher = PathMatcher(name: string, defaultService: Link, pathRules: seq<PathRule>)

  datatype UrlMap = UrlMap(
    description: string,
    defaultService: Link,
    hostRules: seq<HostRule>,
    pathMatchers: seq<PathMatcher>)

  datatype HttpProxy = HttpProxy(description: string, urlMap: Link)

  datatype HttpsProxy = HttpsProxy(description: string, urlMap: Link, sslCertificates: seq<Link>)

  datatype SslCertificate = SslCertificate(description: string, certificate: string, privateKey: string)

  datatype ForwardingRule = ForwardingRule(
    description: string,
    ipAddress: string,
    target: Link,
    portRange: string,
    ipProtocol: string,
    loadBalancingScheme: string)

  datatype Allowed = Allowed(ipProtocol: string, ports: seq<string>)

  datatype Firewall = Firewall(
    description: string,
    sourceRanges: seq<string>,
    allowed: seq<Allowed>,
    targetTags: seq<string>,
    direction: string,
    network: string,
    priority: int)

  type Table<T> = map<string, Stored<T>>

  /** Everything the cloud holds, as a value. */
  datatype Store = Store(
    healthChecks: Table<HealthCheck>,
    backendServices: Table<BackendService>,
    urlMaps: Table<UrlMap>,
    httpProxies: Table<HttpProxy>,
    httpsProxies: Table<HttpsProxy>,
    sslCertificates: Table<SslCertificate>,
    forwardingRules: Table<ForwardingRule>,
    firewalls: Table<Firewall>)

  // ---------- Who refers to whom ----------

  predicate RefersToService(um: UrlMap, link: Link) {
    || um.defaultService == link
    || exists i :: 0 <= i < |um.pathMatchers| &&
         (|| um.pathMatchers[i].defaultService == link
          || exists j :: 0 <= j < |um.pathMatchers[i].pathRules| && um.pathMatchers[i].pathRules[j].service == link)
  }

  predicate HealthCheckInUse(s: Table<BackendService>, name: string) {
    exists n :: n in s && SelfLink(HealthChecks, name) in s[n].spec.healthChecks
  }

  predicate BackendServiceInUse(s: Table<UrlMap>, name: string) {
    exists n :: n in s && RefersToService(s[n].spec, SelfLink(BackendServices, name))
  }

  predicate UrlMapInUse(s: Table<HttpProxy>, t: Table<HttpsProxy>, name: string) {
    || (exists n :: n in s && s[n].spec.urlMap == SelfLink(UrlMaps, name))
    || (exists n :: n in t && t[n].spec.urlMap == SelfLink(UrlMaps, name))
  }

  predicate SslCertificateInUse(s: Table<HttpsProxy>, name: string) {
    exists n :: n in s && SelfLink(SslCertificates, name) in s[n].spec.sslCertificates
  }

  predicate ProxyInUse(s: Table<ForwardingRule>, kind: Kind, name: string) {
    exists n :: n in s && s[n].spec.target == SelfLink(kind, name)
  }

  // ---------- What one API call can do to one table ----------

  /** A call can work, be rejected, or take effect and still report an error. */
  datatype Fault = Works | Rejected | LostReply

  ghost predicate Fetched<T>(m: Table<T>, name: string, r: Option<Stored<T>>, err: Err, reliable: bool) {
    && (err == Nil ==> name in m && r == Some(m[name]))
    && (err != Nil ==> r.None?)
    && (err == NotFound ==> name !in m)
    && (reliable ==> err == if name in m then Nil else NotFound)
  }

  method Fetch<T>(m: Table<T>, name: string, reliable: bool) returns (r: Option<Stored<T>>, err: Err)
    ensures Fetched(m, name, r, err, reliable)
  {
    var fault: Fault := *;
    if fault != Works && !reliable {
      return None, Other;
    }
    if name in m {
      return Some(m[name]), Nil;
    }
    return None, NotFound;
  }

  /** Creating fails on a name that is taken. */
  ghost predicate Inserted<T>(m: Table<T>, m': Table<T>, name: string, spec: T, err: Err, reliable: bool) {
    && (m' == m || (name !in m && Wrote(m, m', name, spec)))
    && (err == Nil ==> name !in m && Wrote(m, m', name, spec))
    && (err == Nil || err == Other)
    && (reliable ==> (err == Nil <==> name !in m))
  }

  /** `m'` is `m` with a new record of this content under `name`. */
  ghost predicate Wrote<T>(m: Table<T>, m': Table<T>, name: string, spec: T) {
    name in m' && m' == m[name := m'[name]] && m'[name].spec == spec
  }

  method Insert<T>(m: Table<T>, name: string, spec: T, reliable: bool) returns (m': Table<T>, err: Err)
    ensures Inserted(m, m', name, spec, err, reliable)
  {
    var fault: Fault, fingerprint: string := *, *;
    if (fault == Rejected && !reliable) || name in m {
      return m, Other;
    }
    m' := m[name := Stored(spec, fingerprint)];
    err := if fault == LostReply && !reliable then Other else Nil;
  }

  /** Updating replaces the whole record. Where the API wants a fingerprint, an
      outdated one is refused. */
  ghost predicate Replaced<T>(m: Table<T>, m': Table<T>, name: string, spec: T, current: bool, err: Err,
                              reliable: bool) {
    && (m' == m || (name in m && current && Wrote(m, m', name, spec)))
    && (err == Nil ==> name in m && Wrote(m, m', name, spec))
    && (reliable ==> (err == Nil <==> name in m && current))
    && (err == NotFound ==> name !in m)
  }

  method Replace<T>(m: Table<T>, name: string, spec: T, fingerprint: Option<string>, reliable: bool)
    returns (m': Table<T>, err: Err)
    ensures Replaced(m, m', name, spec, name in m && (fingerprint.None? || fingerprint.value == m[name].fingerprint),
                     err, reliable)
  {
    var fault: Fault, next: string := *, *;
    if fault == Rejected && !reliable {
      return m, Other;
    }
    if name !in m {
      return m, NotFound;
    }
    if fingerprint.Some? && fingerprint.value != m[name].fingerprint {
      return m, Other;
    }
    m' := m[name := Stored(spec, next)];
    err := if fault == LostReply && !reliable then Other else Nil;
  }

  /** Changing some fields of an existing record; the rest of it is kept. */
  ghost predicate Edited<T>(m: Table<T>, m': Table<T>, name: string, spec: T, err: Err, reliable: bool)
    requires name in m
  {
    && (m' == m || m' == m[name := m[name].(spec := spec)])
    && (err == Nil ==> m' == m[name := m[name].(spec := spec)])
    && (err == Nil || err == Other)
    && (reliable ==> err == Nil)
  }

  method Edit<T>(m: Table<T>, name: string, spec: T, reliable: bool) returns (m': Table<T>, err: Err)
    requires name in m
    ensures Edited(m, m', name, spec, err, reliable)
  {
    var fault: Fault := *;
    if fault == Rejected && !reliable {
      return m, Other;
    }
    m' := m[name := m[name].(spec := spec)];
    err := if fault == LostReply && !reliable then Other else Nil;
  }

  ghost predicate Removed<T>(m: Table<T>, m': Table<T>, name: string, inUse: bool, err: Err, reliable: bool) {
    && (m' == m || (!inUse && m' == m - {name}))
    && (err == Nil ==> name in m && m' == m - {name})
    && (err == NotFound ==> name !in m && m' == m)
    && (reliable ==> err == if name !in m then NotFound else if inUse then InUse else Nil)
  }

  method Remove<T>(m: Table<T>, name: string, inUse: bool, reliable: bool) returns (m': Table<T>, err: Err)
    ensures Removed(m, m', name, inUse, err, reliable)
  {
    var fault: Fault := *;
    if fault == Rejected && !reliable {
      return m, Other;
    }
    if name !in m {
      return m, NotFound;
    }
    if inUse {
      return m, InUse;
    }
    m' := m - {name};
    err := if fault == LostReply && !reliable then Other else Nil;
  }

  /** What ensuring one resource may do to its table when an update replaces
      the whole record: nothing, or write the wanted record. Without force an
      existing record is never touched; success means the wanted record is
      there; and a reliable cloud succeeds exactly when the flag allows it. */
  ghost predicate Reconciled<T>(m: Table<T>, m': Table<T>, name: string, want: T, force: bool, err: Err,
                                reliable: bool) {
    && (m' == m || Wrote(m, m', name, want))
    && (name in m && (!force || m[name].spec == want) ==> m' == m)
    && (err == Nil ==> name in m' && m'[name].spec == want)
    && (reliable ==> (err == Nil <==> force || name !in m || m[name].spec == want))
  }

  /** A record some run wants to find under a name. */
  datatype Want<T> = Want(name: string, spec: T)

  ghost predicate Holds<T>(m: Table<T>, w: Want<T>) {
    w.name in m && m[w.name].spec == w.spec
  }

  /** Nothing stands in the way of these records: a name that is taken holds
      what is wanted, and no name is wanted with two contents. */
  ghost predicate Compatible<T>(m: Table<T>, wants: seq<Want<T>>) {
    && (forall i :: 0 <= i < |wants| && wants[i].name in m ==> Holds(m, wants[i]))
    && (forall i, j :: 0 <= i < |wants| && 0 <= j < |wants| && wants[i].name == wants[j].name ==> wants[i] == wants[j])
  }

  ghost predicate AllHold<T>(m: Table<T>, wants: seq<Want<T>>) {
    forall i :: 0 <= i < |wants| ==> Holds(m, wants[i])
  }

  ghost predicate Wanted<T>(wants: seq<Want<T>>, name: string) {
    exists i :: 0 <= i < |wants| && wants[i].name == name
  }

  /** Some record wanted under this name is the one that is there. */
  ghost predicate Settled<T>(m: Table<T>, wants: seq<Want<T>>, name: string) {
    exists i :: 0 <= i < |wants| && wants[i].name == name && Holds(m, wants[i])
  }

  /** What ensuring a list of resources, one after the other and regardless of
      errors, may do to their table; `ok` says that no step failed. */
  ghost predicate ReconciledAll<T>(m: Table<T>, m': Table<T>, wants: seq<Want<T>>, force: bool, ok: bool,
                                   reliable: bool) {
    && (forall n :: n in m ==> n in m' && (m'[n] == m[n] || (force && Wanted(wants, n))))
    && (forall n :: n in m' ==> (n in m && m'[n] == m[n]) || Settled(m', wants, n))
    && (ok ==> forall i :: 0 <= i < |wants| ==> Settled(m', wants, wants[i].name))
    && (ok && !force ==> AllHold(m', wants))
    && (AllHold(m, wants) ==> m' == m)
    && (reliable && (force || Compatible(m, wants)) ==> ok)
  }

  lemma ReconciledNone<T>(m: Table<T>, force: bool, reliable: bool)
    ensures ReconciledAll(m, m, [], force, true, reliable)
  {
  }

  lemma ReconciledStep<T>(m: Table<T>, m1: Table<T>, m2: Table<T>, wants: seq<Want<T>>, w: Want<T>,
                          force: bool, ok: bool, err: Err, reliable: bool)
    requires ReconciledAll(m, m1, wants, force, ok, reliable)
    requires Reconciled(m1, m2, w.name, w.spec, force, err, reliable)
    ensures ReconciledAll(m, m2, wants + [w], force, ok && err == Nil, reliable)
  {
    hide Settled, Wanted, AllHold, Compatible;
    StepRecords(m, m1, m2, wants, w, force, ok, err, reliable);
    if ok && err == Nil {
      StepSettles(m1, m2, wants, w, force, err, reliable);
    }
    StepHolds(m, m1, m2, wants, w, force, ok, err, reliable);
    if reliable && Compatible(m, wants + [w]) {
      StillCompatible(m, m1, wants, w, force, ok, reliable);
    }
  }

  lemma StepRecords<T>(m: Table<T>, m1: Table<T>, m2: Table<T>, wants: seq<Want<T>>, w: Want<T>,
                       force: bool, ok: bool, err: Err, reliable: bool)
    requires ReconciledAll(m, m1, wants, force, ok, reliable)
    requires Reconciled(m1, m2, w.name, w.spec, force, err, reliable)
    ensures forall n :: n in m ==> n in m2 && (m2[n] == m[n] || (force && Wanted(wants + [w], n)))
    ensures forall n :: n in m2 ==> (n in m && m2[n] == m[n]) || Settled(m2, wants + [w], n)
  {
    hide AllHold, Compatible;
    var all := wants + [w];
    assert all[|wants|] == w;
    forall n | n in m2 ensures (n in m && m2[n] == m[n]) || Settled(m2, all, n) {
      if n in m1 && m2[n] == m1[n] {
        if !(n in m && m1[n] == m[n]) {
          var i :| 0 <= i < |wants| && wants[i].name == n && Holds(m1, wants[i]);
          assert all[i] == wants[i];
        }
      }
    }
    forall n | n in m ensures n in m2 && (m2[n] == m[n] || (force && Wanted(all, n))) {
      if m1[n] != m[n] {
        var i :| 0 <= i < |wants| && wants[i].name == n;
        assert all[i] == wants[i];
      }
    }
  }

  lemma StepSettles<T>(m1: Table<T>, m2: Table<T>, wants: seq<Want<T>>, w: Want<T>, force: bool, err: Err,
                       reliable: bool)
    requires forall i :: 0 <= i < |wants| ==> Settled(m1, wants, wants[i].name)
    requires Reconciled(m1, m2, w.name, w.spec, force, err, reliable) && err == Nil
    ensures forall i :: 0 <= i < |wants + [w]| ==> Settled(m2, wants + [w], (wants + [w])[i].name)
  {
    var all := wants + [w];
    assert all[|wants|] == w && Holds(m2, w);
    forall i | 0 <= i < |all| ensures Settled(m2, all, all[i].name) {
      if all[i].name != w.name {
        assert all[i] == wants[i];
        var j :| 0 <= j < |wants| && wants[j].name == wants[i].name && Holds(m1, wants[j]);
        assert all[j] == wants[j] && Holds(m2, all[j]);
      }
    }
  }

  lemma StepHolds<T>(m: Table<T>, m1: Table<T>, m2: Table<T>, wants: seq<Want<T>>, w: Want<T>,
                     force: bool, ok: bool, err: Err, reliable: bool)
    requires ReconciledAll(m, m1, wants, force, ok, reliable)
    requires Reconciled(m1, m2, w.name, w.spec, force, err, reliable)
    ensures ok && err == Nil && !force ==> AllHold(m2, wants + [w])
    ensures AllHold(m, wants + [w]) ==> m2 == m
  {
    hide Settled, Wanted, Compatible;
    var all := wants + [w];
    assert all[|wants|] == w;
    if AllHold(m, all) {
      forall i | 0 <= i < |wants| ensures Holds(m, wants[i]) {
        assert all[i] == wants[i];
      }
    }
  }

  lemma StillCompatible<T>(m: Table<T>, m1: Table<T>, wants: seq<Want<T>>, w: Want<T>, force: bool, ok: bool,
                           reliable: bool)
    requires ReconciledAll(m, m1, wants, force, ok, reliable)
    requires Compatible(m, wants + [w])
    ensures Compatible(m, wants)
    ensures w.name in m1 ==> Holds(m1, w)
  {
    var all := wants + [w];
    assert all[|wants|] == w;
    assert forall i :: 0 <= i < |wants| ==> all[i] == wants[i];
    if w.name in m1 && !(w.name in m && m1[w.name] == m[w.name]) {
      var i :| 0 <= i < |wants| && wants[i].name == w.name && Holds(m1, wants[i]);
      assert all[i] == all[|wants|];
    }
  }

  /** What deleting one resource may do to its table, a missing one being no
      error: it is gone if the result is nil, nothing else changes, a referenced
      one stays, and a reliable cloud succeeds unless it is referenced. */
  ghost predicate Purged<T>(m: Table<T>, m': Table<T>, name: string, inUse: bool, err: Err, reliable: bool) {
    && (m' == m || (!inUse && m' == m - {name}))
    && (err == Nil ==> m' == m - {name})
    && (reliable ==> (err == Nil <==> name !in m || !inUse))
  }

  /** Deleting the first `n` of a list of names, going on after errors; `busy`
      are the names another resource refers to. */
  ghost predicate PurgedAll<T>(m: Table<T>, m': Table<T>, names: seq<string>, n: nat, busy: set<string>, err: Err,
                               reliable: bool) {
    && n <= |names|
    && (forall k :: k in m' ==> k in m && m'[k] == m[k])
    && (forall k :: k in m && k !in m' ==> k !in busy && exists i :: 0 <= i < n && names[i] == k)
    && (err == Nil ==> forall i :: 0 <= i < n ==> names[i] !in m')
    && (reliable ==> (err == Nil <==> forall i :: 0 <= i < n && names[i] in m ==> names[i] !in busy))
  }

  lemma PurgedNone<T>(m: Table<T>, names: seq<string>, busy: set<string>, reliable: bool)
    ensures PurgedAll(m, m, names, 0, busy, Nil, reliable)
  {
  }

  lemma PurgedStep<T>(m: Table<T>, m1: Table<T>, m2: Table<T>, names: seq<string>, n: nat, busy: set<string>,
                      inUse: bool,
                      err: Err, e: Err, reliable: bool)
    requires PurgedAll(m, m1, names, n, busy, err, reliable)
    requires n < |names| && Purged(m1, m2, names[n], inUse, e, reliable)
    requires names[n] in m ==> (inUse <==> names[n] in busy)
    ensures PurgedAll(m, m2, names, n + 1, busy, Append(err, e), reliable)
  {
    forall k | k in m && k !in m2 ensures k !in busy && exists i :: 0 <= i < n + 1 && names[i] == k {
      if k in m1 {
        assert names[n] == k;
      } else {
        var i :| 0 <= i < n && names[i] == k;
        assert 0 <= i < n + 1;
      }
    }
  }

  /** The cloud. A `strict` cloud refuses to delete a resource that another one
      refers to; a `reliable` cloud fails only for a reason. */
  class Cloud {
    const strict: bool
    const reliable: bool

    var healthChecks: Table<HealthCheck>
    var backendServices: Table<BackendService>
    var urlMaps: Table<UrlMap>
    var httpProxies: Table<HttpProxy>
    var httpsProxies: Table<HttpsProxy>
    var sslCertificates: Table<SslCertificate>
    var forwardingRules: Table<ForwardingRule>
    var firewalls: Table<Firewall>

    constructor (strict: bool, reliable: bool, s: Store)
      ensures this.strict == strict && this.reliable == reliable && Snapshot() == s
    {
      this.strict, this.reliable := strict, reliable;
      healthChecks, backendServices, urlMaps := s.healthChecks, s.backendServices, s.urlMaps;
      httpProxies, httpsProxies, sslCertificates := s.httpProxies, s.httpsProxies, s.sslCertificates;
      forwardingRules, firewalls := s.forwardingRules, s.firewalls;
    }

    ghost function Snapshot(): Store
      reads this
    {
      Store(healthChecks, backendServices, urlMaps, httpProxies, httpsProxies, sslCertificates, forwardingRules,
            firewalls)
    }

    method DeleteHealthCheck(name: string) returns (err: Err)
      modifies `healthChecks
      ensures Removed(old(healthChecks), healthChecks, name, strict && HealthCheckInUse(backendServices, name), err,
                      reliable)
    {
      healthChecks, err := Remove(healthChecks, name, strict && HealthCheckInUse(backendServices, name), reliable);
    }

    method DeleteBackendService(name: string) returns (err: Err)
      modifies `backendServices
      ensures Removed(old(backendServices), backendServices, name, strict && BackendServiceInUse(urlMaps, name), err,
                      reliable)
    {
      backendServices, err := Remove(backendServices, name, strict && BackendServiceInUse(urlMaps, name), reliable);
    }

    method DeleteUrlMap(name: string) returns (err: Err)
      modifies `urlMaps
      ensures Removed(old(urlMaps), urlMaps, name, strict && UrlMapInUse(httpProxies, httpsProxies, name), err,
                      reliable)
    {
      urlMaps, err := Remove(urlMaps, name, strict && UrlMapInUse(httpProxies, httpsProxies, name), reliable);
    }

    method DeleteHttpProxy(name: string) returns (err: Err)
      modifies `httpProxies
      ensures Removed(old(httpProxies), httpProxies, name, strict && ProxyInUse(forwardingRules, HttpProxies, name),
                      err, reliable)
    {
      httpProxies, err := Remove(httpProxies, name, strict && ProxyInUse(forwardingRules, HttpProxies, name), reliable);
    }

    method DeleteHttpsProxy(name: string) returns (err: Err)
      modifies `httpsProxies
      ensures Removed(old(httpsProxies), httpsProxies, name, strict && ProxyInUse(forwardingRules, HttpsProxies, name),
                      err, reliable)
    {
      httpsProxies, err :=
          Remove(httpsProxies, name, strict && ProxyInUse(forwardingRules, HttpsProxies, name), reliable);
    }

    method DeleteSslCertificate(name: string) returns (err: Err)
      modifies `sslCertificates
      ensures Removed(old(sslCertificates), sslCertificates, name, strict && SslCertificateInUse(httpsProxies, name),
                      err, reliable)
    {
      sslCertificates, err :=
          Remove(sslCertificates, name, strict && SslCertificateInUse(httpsProxies, name), reliable);
    }

    /** SetUrlMapForTargetHttpProxy changes one field and nothing else. */
    method SetHttpProxyUrlMap(name: string, urlMap: Link) returns (err: Err)
      modifies `httpProxies
      ensures name !in old(httpProxies) ==> httpProxies == old(httpProxies) && err != Nil
      ensures name in old(httpProxies) ==>
                Edited(old(httpProxies), httpProxies, name, old(httpProxies)[name].spec.(urlMap := urlMap), err,
                       reliable)
    {
      if name !in httpProxies {
        return NotFound;
      }
      httpProxies, err := Edit(httpProxies, name, httpProxies[name].spec.(urlMap := urlMap), reliable);
    }

    /** SetUrlMapForTargetHttpsProxy. */
    method SetHttpsProxyUrlMap(name: string, urlMap: Link) returns (err: Err)
      modifies `httpsProxies
      ensures name !in old(httpsProxies) ==> httpsProxies == old(httpsProxies) && err != Nil
      ensures name in old(httpsProxies) ==>
                Edited(old(httpsProxies), httpsProxies, name, old(httpsProxies)[name].spec.(urlMap := urlMap), err,
                       reliable)
    {
      if name !in httpsProxies {
        return NotFound;
      }
      httpsProxies, err := Edit(httpsProxies, name, httpsProxies[name].spec.(urlMap := urlMap), reliable);
    }

    /** SetProxyForGlobalForwardingRule. */
    method SetRuleTarget(name: string, target: Link) returns (err: Err)
      modifies `forwardingRules
      ensures name !in old(forwardingRules) ==> forwardingRules == old(forwardingRules) && err != Nil
      ensures name in old(forwardingRules) ==>
                Edited(old(forwardingRules), forwardingRules, name, old(forwardingRules)[name].spec.(target := target),
                       err, reliable)
    {
      if name !in forwardingRules {
        return NotFound;
      }
      forwardingRules, err := Edit(forwardingRules, name, forwardingRules[name].spec.(target := target), reliable);
    }
  }
}
