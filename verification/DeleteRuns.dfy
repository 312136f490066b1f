/** Why the order of deletion works. */
module DeleteRuns {
  import opened Prelude
  import opened Names
  import opened Ingress
  import opened LoadBalancer
  import opened CreateRuns
  import opened Histories
  import C = Cloud
  import H = HealthChecks
  import B = BackendServices
  import U = UrlMaps
  import T = TargetProxies
  import S = SslCerts
  import R = ForwardingRules
  import F = FirewallRules

  // ---------- Exactly when a delete succeeds ----------

  /** The store without the resources of one load balancer for these ports. */
  ghost function Remainder(n: Namer, ports: seq<ServicePort>, s: C.Store): C.Store {
    C.Store(
      s.healthChecks - H.NameSet(n, ports),
      s.backendServices - B.NameSet(n, ports),
      s.urlMaps - {n.Name(UrlMap)},
      s.httpProxies - {n.Name(HttpProxy)},
      s.httpsProxies - {n.Name(HttpsProxy)},
      s.sslCertificates - {n.Name(SslCert)},
      s.forwardingRules - {n.Name(HttpRule), n.Name(HttpsRule)},
      s.firewalls - {n.Name(Firewall)})
  }

  /** Nothing that stays behind refers to a resource that is to be deleted. */
  ghost predicate NoOutsideUse(n: Namer, ports: seq<ServicePort>, s: C.Store) {
    var rest := Remainder(n, ports, s);
    && (n.Name(HttpProxy) in s.httpProxies ==> !C.ProxyInUse(rest.forwardingRules, C.HttpProxies, n.Name(HttpProxy)))
    && (n.Name(HttpsProxy) in s.httpsProxies ==>
          !C.ProxyInUse(rest.forwardingRules, C.HttpsProxies, n.Name(HttpsProxy)))
    && (n.Name(SslCert) in s.sslCertificates ==> !C.SslCertificateInUse(rest.httpsProxies, n.Name(SslCert)))
    && (n.Name(UrlMap) in s.urlMaps ==> !C.UrlMapInUse(rest.httpProxies, rest.httpsProxies, n.Name(UrlMap)))
    && (forall k :: k in s.backendServices && k in B.NameSet(n, ports) ==> !C.BackendServiceInUse(rest.urlMaps, k))
    && (forall k :: k in s.healthChecks && k in H.NameSet(n, ports) ==> !C.HealthCheckInUse(rest.backendServices, k))
  }

  /** Whatever fails, nothing but the resources of this load balancer for these
      ports is touched. */
  lemma DeleteTouchesOnlyItsOwn(a: Args, s: C.Store, s': C.Store, err: Err, ports: seq<ServicePort>, e: DeleteErrs)
    requires DeleteRun(a, s, s', err, ports, e)
    ensures SameOutside(s.healthChecks, s'.healthChecks, H.NameSet(a.Namer(), ports))
    ensures SameOutside(s.backendServices, s'.backendServices, B.NameSet(a.Namer(), ports))
    ensures SameOutside(s.urlMaps, s'.urlMaps, {a.Namer().Name(UrlMap)})
    ensures SameOutside(s.httpProxies, s'.httpProxies, {a.Namer().Name(HttpProxy)})
    ensures SameOutside(s.httpsProxies, s'.httpsProxies, {a.Namer().Name(HttpsProxy)})
    ensures SameOutside(s.sslCertificates, s'.sslCertificates, {a.Namer().Name(SslCert)})
    ensures SameOutside(s.forwardingRules, s'.forwardingRules, {a.Namer().Name(HttpRule), a.Namer().Name(HttpsRule)})
    ensures SameOutside(s.firewalls, s'.firewalls, {a.Namer().Name(Firewall)})
  {
    hide Namer.Name, NodePorts, C.ProxyInUse, C.SslCertificateInUse, C.UrlMapInUse, B.Busy, H.Busy;
    var n := a.Namer();
    if a.clients != {} {
      hide FrontDeleted;
      PurgedOutside(s.backendServices, s'.backendServices, B.PortNames(n, ports),
                    B.Busy(a.strict, s.backendServices, s'.urlMaps), e.be, a.reliable);
      PurgedOutside(s.healthChecks, s'.healthChecks, H.PortNames(n, ports),
                    H.Busy(a.strict, s.healthChecks, s'.backendServices), e.hc, a.reliable);
    }
    if FrontDeleted(a, s, s', e) {
      FrontOutside(a, s, s', e);
    }
  }

  lemma PurgedOutside<V>(m: C.Table<V>, m': C.Table<V>, names: seq<string>, busy: set<string>, err: Err, reliable: bool)
    requires C.PurgedAll(m, m', names, |names|, busy, err, reliable)
    ensures SameOutside(m, m', Elements(names))
    ensures err == Nil ==> m' == m - Elements(names)
  {
  }

  lemma FrontOutside(a: Args, s: C.Store, s': C.Store, e: DeleteErrs)
    requires FrontDeleted(a, s, s', e)
    ensures SameOutside(s.urlMaps, s'.urlMaps, {a.Namer().Name(UrlMap)})
    ensures SameOutside(s.httpProxies, s'.httpProxies, {a.Namer().Name(HttpProxy)})
    ensures SameOutside(s.httpsProxies, s'.httpsProxies, {a.Namer().Name(HttpsProxy)})
    ensures SameOutside(s.sslCertificates, s'.sslCertificates, {a.Namer().Name(SslCert)})
    ensures SameOutside(s.forwardingRules, s'.forwardingRules, {a.Namer().Name(HttpRule), a.Namer().Name(HttpsRule)})
    ensures SameOutside(s.firewalls, s'.firewalls, {a.Namer().Name(Firewall)})
  {
    hide Namer.Name, C.ProxyInUse, C.SslCertificateInUse, C.UrlMapInUse;
  }

  /** In any cloud, with any failures: a nil result means that everything this
      load balancer had for these ports is gone and nothing else changed. */
  lemma NilDeleteIsComplete(a: Args, s: C.Store, s': C.Store, ports: seq<ServicePort>, e: DeleteErrs)
    requires DeleteRun(a, s, s', Nil, ports, e)
    ensures s' == Remainder(a.Namer(), ports, s)
  {
    hide Namer.Name, NodePorts, C.ProxyInUse, C.SslCertificateInUse, C.UrlMapInUse, B.Busy, H.Busy, C.PurgedAll;
    var n := a.Namer();
    PurgedOutside(s.backendServices, s'.backendServices, B.PortNames(n, ports),
                  B.Busy(a.strict, s.backendServices, s'.urlMaps), e.be, a.reliable);
    PurgedOutside(s.healthChecks, s'.healthChecks, H.PortNames(n, ports),
                  H.Busy(a.strict, s.healthChecks, s'.backendServices), e.hc, a.reliable);
  }

  lemma FrontSucceeds(a: Args, s: C.Store, s': C.Store, ports: seq<ServicePort>, e: DeleteErrs)
    requires a.reliable && FrontDeleted(a, s, s', e) && NoOutsideUse(a.Namer(), ports, s)
    ensures e.fw == Nil && e.fr == Nil && e.tp == Nil && e.tps == Nil && e.sc == Nil && e.um == Nil
    ensures var rest := Remainder(a.Namer(), ports, s);
            && s'.urlMaps == rest.urlMaps && s'.httpProxies == rest.httpProxies && s'.httpsProxies == rest.httpsProxies
            && s'.sslCertificates == rest.sslCertificates && s'.forwardingRules == rest.forwardingRules &&
               s'.firewalls == rest.firewalls
  {
    hide Namer.Name, C.ProxyInUse, C.SslCertificateInUse, C.UrlMapInUse, C.BackendServiceInUse, C.HealthCheckInUse,
         B.NameSet, H.NameSet;
  }

  lemma ServicesSucceed(a: Args, s: C.Store, s': C.Store, ports: seq<ServicePort>, e: DeleteErrs)
    requires a.reliable && BackDeleted(a, s, s', ports, e) && NoOutsideUse(a.Namer(), ports, s)
    requires s'.urlMaps == Remainder(a.Namer(), ports, s).urlMaps
    ensures e.be == Nil && s'.backendServices == Remainder(a.Namer(), ports, s).backendServices
  {
    hide Namer.Name, C.ProxyInUse, C.SslCertificateInUse, C.UrlMapInUse, C.BackendServiceInUse, C.HealthCheckInUse,
         H.PortNames, H.Busy;
    var names := B.PortNames(a.Namer(), ports);
    forall i | 0 <= i < |names| && names[i] in s.backendServices
      ensures names[i] !in B.Busy(a.strict, s.backendServices, s'.urlMaps)
    {
      assert names[i] in B.NameSet(a.Namer(), ports);
    }
    PurgedOutside(s.backendServices, s'.backendServices, names, B.Busy(a.strict, s.backendServices, s'.urlMaps), e.be,
                  a.reliable);
  }

  lemma ChecksSucceed(a: Args, s: C.Store, s': C.Store, ports: seq<ServicePort>, e: DeleteErrs)
    requires a.reliable && BackDeleted(a, s, s', ports, e) && NoOutsideUse(a.Namer(), ports, s)
    requires s'.backendServices == Remainder(a.Namer(), ports, s).backendServices
    ensures e.hc == Nil
  {
    hide Namer.Name, C.ProxyInUse, C.SslCertificateInUse, C.UrlMapInUse, C.BackendServiceInUse, C.HealthCheckInUse,
         B.PortNames, B.Busy, B.NameSet;
    var names := H.PortNames(a.Namer(), ports);
    forall i | 0 <= i < |names| && names[i] in s.healthChecks
      ensures names[i] !in H.Busy(a.strict, s.healthChecks, s'.backendServices)
    {
      assert names[i] in H.NameSet(a.Namer(), ports);
    }
  }

  lemma NilMeansFrontUnused(a: Args, s: C.Store, s': C.Store, ports: seq<ServicePort>, e: DeleteErrs)
    requires a.reliable && a.strict && DeleteRun(a, s, s', Nil, ports, e) && s' == Remainder(a.Namer(), ports, s)
    ensures var n := a.Namer();
            && (n.Name(HttpProxy) in s.httpProxies ==>
                  !C.ProxyInUse(s'.forwardingRules, C.HttpProxies, n.Name(HttpProxy)))
            && (n.Name(HttpsProxy) in s.httpsProxies ==>
                  !C.ProxyInUse(s'.forwardingRules, C.HttpsProxies, n.Name(HttpsProxy)))
            && (n.Name(SslCert) in s.sslCertificates ==> !C.SslCertificateInUse(s'.httpsProxies, n.Name(SslCert)))
            && (n.Name(UrlMap) in s.urlMaps ==> !C.UrlMapInUse(s'.httpProxies, s'.httpsProxies, n.Name(UrlMap)))
  {
    hide Namer.Name, NodePorts, C.ProxyInUse, C.SslCertificateInUse, C.UrlMapInUse, BackDeleted, R.RulesPurged;
  }

  lemma NilMeansBackUnused(a: Args, s: C.Store, s': C.Store, ports: seq<ServicePort>, e: DeleteErrs)
    requires a.reliable && a.strict && BackDeleted(a, s, s', ports, e) && e.be == Nil && e.hc == Nil
    ensures forall k :: k in s.backendServices && k in B.NameSet(a.Namer(), ports) ==>
              !C.BackendServiceInUse(s'.urlMaps, k)
    ensures forall k :: k in s.healthChecks && k in H.NameSet(a.Namer(), ports) ==>
              !C.HealthCheckInUse(s'.backendServices, k)
  {
    hide Namer.Name, C.BackendServiceInUse, C.HealthCheckInUse;
    forall k | k in s.backendServices && k in B.NameSet(a.Namer(), ports)
      ensures !C.BackendServiceInUse(s'.urlMaps, k)
    {
      var i :| 0 <= i < |B.PortNames(a.Namer(), ports)| && B.PortNames(a.Namer(), ports)[i] == k;
      assert k !in B.Busy(a.strict, s.backendServices, s'.urlMaps);
    }
    forall k | k in s.healthChecks && k in H.NameSet(a.Namer(), ports)
      ensures !C.HealthCheckInUse(s'.backendServices, k)
    {
      var i :| 0 <= i < |H.PortNames(a.Namer(), ports)| && H.PortNames(a.Namer(), ports)[i] == k;
      assert k !in H.Busy(a.strict, s.healthChecks, s'.backendServices);
    }
  }

  /** A nil result of a strict cloud means that nothing outside was in the way. */
  lemma NilMeansNoOutsideUse(a: Args, s: C.Store, s': C.Store, ports: seq<ServicePort>, e: DeleteErrs)
    requires a.reliable && a.strict && DeleteRun(a, s, s', Nil, ports, e)
    ensures NoOutsideUse(a.Namer(), ports, s)
  {
    hide Namer.Name, NodePorts, C.ProxyInUse, C.SslCertificateInUse, C.UrlMapInUse, C.BackendServiceInUse,
         C.HealthCheckInUse, FrontDeleted,
         BackDeleted, B.NameSet, H.NameSet;
    NilDeleteIsComplete(a, s, s', ports, e);
    NilMeansFrontUnused(a, s, s', ports, e);
    NilMeansBackUnused(a, s, s', ports, e);
  }

  /** In a cloud that refuses to delete what is in use and otherwise works, a
      delete with a client succeeds exactly when nothing that stays behind refers
      to what it deletes: the order of deletion itself never causes a refusal. */
  lemma DeleteSucceedsExactlyWhen(a: Args, s: C.Store, s': C.Store, err: Err, ports: seq<ServicePort>, e: DeleteErrs)
    requires DeleteRun(a, s, s', err, ports, e) && a.reliable && a.strict && a.clients != {}
    ensures err == Nil <==> NoOutsideUse(a.Namer(), ports, s)
  {
    if err == Nil {
      NilMeansNoOutsideUse(a, s, s', ports, e);
    } else if NoOutsideUse(a.Namer(), ports, s) {
      FrontSucceeds(a, s, s', ports, e);
      ServicesSucceed(a, s, s', ports, e);
      ChecksSucceed(a, s, s', ports, e);
      assert false;
    }
  }

  // ---------- Why nothing outside refers to a load balancer ----------

  /** Resources of this load balancer are referred to only by its own, each by
      the one of the matching role. */
  ghost predicate SelfContained(n: Namer, s: C.Store) {
    && (forall k, p: Port :: k in s.backendServices && H.Link(n, p) in s.backendServices[k].spec.healthChecks ==>
          k == n.Name(BackendService(p)))
    && (forall k, p: Port :: k in s.urlMaps && C.RefersToService(s.urlMaps[k].spec, B.Link(n, p)) ==>
          k == n.Name(UrlMap))
    && (forall k :: k in s.httpProxies && s.httpProxies[k].spec.urlMap == U.Link(n) ==> k == n.Name(HttpProxy))
    && (forall k :: k in s.httpsProxies && s.httpsProxies[k].spec.urlMap == U.Link(n) ==> k == n.Name(HttpsProxy))
    && (forall k :: k in s.httpsProxies && S.OwnLink(n) in s.httpsProxies[k].spec.sslCertificates ==>
          k == n.Name(HttpsProxy))
    && (forall k :: k in s.forwardingRules && s.forwardingRules[k].spec.target == T.HttpLink(n) ==>
          k == n.Name(HttpRule))
    && (forall k :: k in s.forwardingRules && s.forwardingRules[k].spec.target == T.HttpsLink(n) ==>
          k == n.Name(HttpsRule))
  }

  lemma SelfContainedMeansNoOutsideUse(n: Namer, ports: seq<ServicePort>, s: C.Store)
    requires SelfContained(n, s)
    ensures NoOutsideUse(n, ports, s)
  {
    hide Namer.Name, C.RefersToService;
    var rest := Remainder(n, ports, s);
    forall k | k in s.backendServices && k in B.NameSet(n, ports) ensures !C.BackendServiceInUse(rest.urlMaps, k) {
      var i :| 0 <= i < |ports| && B.PortNames(n, ports)[i] == k;
      assert C.SelfLink(C.BackendServices, k) == B.Link(n, ports[i].nodePort);
    }
    forall k | k in s.healthChecks && k in H.NameSet(n, ports) ensures !C.HealthCheckInUse(rest.backendServices, k) {
      var i :| 0 <= i < |ports| && H.PortNames(n, ports)[i] == k;
      assert C.SelfLink(C.HealthChecks, k) == H.Link(n, ports[i].nodePort);
      assert B.PortNames(n, ports)[i] in B.NameSet(n, ports);
    }
    assert C.SelfLink(C.HttpProxies, n.Name(HttpProxy)) == T.HttpLink(n);
    assert C.SelfLink(C.HttpsProxies, n.Name(HttpsProxy)) == T.HttpsLink(n);
    assert C.SelfLink(C.SslCertificates, n.Name(SslCert)) == S.OwnLink(n);
    assert C.SelfLink(C.UrlMaps, n.Name(UrlMap)) == U.Link(n);
  }

  lemma WritesKeepOwnServices(l: string, preShared: string, s: C.Store, s': C.Store)
    requires Writes(MciNamer(l), preShared, s, s') && SelfContained(MciNamer(l), s)
    ensures var n := MciNamer(l);
            forall k, p: Port :: k in s'.backendServices && H.Link(n, p) in s'.backendServices[k].spec.healthChecks ==>
                  k == n.Name(BackendService(p))
  {
    hide Namer.Name, C.RefersToService, NothingLost, WroteUrlMap, WroteHttpProxy, WroteHttpsProxy, WroteRule;
    var n := MciNamer(l);
    forall k, p: Port | k in s'.backendServices && H.Link(n, p) in s'.backendServices[k].spec.healthChecks
      ensures k == n.Name(BackendService(p))
    {
      if !Kept(s.backendServices, s'.backendServices, k) {
        var q: Port :| k == n.Name(BackendService(q)) && s'.backendServices[k].spec.healthChecks == [H.Link(n, q)];
        NameDeterminesRole(l, HealthCheck(p), HealthCheck(q));
      }
    }
  }

  lemma WritesKeepOwnFront(l: string, preShared: string, s: C.Store, s': C.Store)
    requires Writes(MciNamer(l), preShared, s, s') && SelfContained(MciNamer(l), s)
    ensures var n := MciNamer(l);
            && (forall k, p: Port :: k in s'.urlMaps && C.RefersToService(s'.urlMaps[k].spec, B.Link(n, p)) ==>
                  k == n.Name(UrlMap))
            && (forall k :: k in s'.httpProxies && s'.httpProxies[k].spec.urlMap == U.Link(n) ==>
                  k == n.Name(HttpProxy))
            && (forall k :: k in s'.httpsProxies && s'.httpsProxies[k].spec.urlMap == U.Link(n) ==>
                  k == n.Name(HttpsProxy))
            && (forall k :: k in s'.httpsProxies && S.OwnLink(n) in s'.httpsProxies[k].spec.sslCertificates ==>
                  k == n.Name(HttpsProxy))
  {
    hide Namer.Name, C.RefersToService, NothingLost, WroteService, WroteRule, U.Link, B.Link, S.OwnLink;
  }

  lemma WritesKeepOwnRules(l: string, preShared: string, s: C.Store, s': C.Store)
    requires Writes(MciNamer(l), preShared, s, s') && SelfContained(MciNamer(l), s)
    ensures var n := MciNamer(l);
            && (forall k :: k in s'.forwardingRules && s'.forwardingRules[k].spec.target == T.HttpLink(n) ==>
                  k == n.Name(HttpRule))
            && (forall k :: k in s'.forwardingRules && s'.forwardingRules[k].spec.target == T.HttpsLink(n) ==>
                  k == n.Name(HttpsRule))
  {
    hide Namer.Name, C.RefersToService, NothingLost, WroteService, WroteUrlMap, WroteHttpProxy, WroteHttpsProxy;
  }

  /** A create, complete or not, keeps its own load balancer self-contained. */
  lemma WritesKeepOwn(l: string, preShared: string, s: C.Store, s': C.Store)
    requires Writes(MciNamer(l), preShared, s, s') && SelfContained(MciNamer(l), s)
    ensures SelfContained(MciNamer(l), s')
  {
    hide Namer.Name, C.RefersToService, Writes;
    WritesKeepOwnServices(l, preShared, s, s');
    WritesKeepOwnFront(l, preShared, s, s');
    WritesKeepOwnRules(l, preShared, s, s');
  }

  lemma WritesKeepOtherServices(l: string, preShared: string, s: C.Store, s': C.Store, m: Namer)
    requires Writes(MciNamer(l), preShared, s, s') && SelfContained(m, s) && NamesDiffer(MciNamer(l), m)
    ensures forall k, p: Port :: k in s'.backendServices && H.Link(m, p) in s'.backendServices[k].spec.healthChecks ==>
              k == m.Name(BackendService(p))
    ensures forall k, p: Port :: k in s'.urlMaps && C.RefersToService(s'.urlMaps[k].spec, B.Link(m, p)) ==>
              k == m.Name(UrlMap)
  {
    hide Namer.Name, C.RefersToService, NothingLost, WroteHttpProxy, WroteHttpsProxy, WroteRule;
    var n := MciNamer(l);
    forall k, p: Port | k in s'.backendServices && H.Link(m, p) in s'.backendServices[k].spec.healthChecks
      ensures Kept(s.backendServices, s'.backendServices, k)
    {
      assert forall q: Port :: n.Name(HealthCheck(q)) != m.Name(HealthCheck(p));
    }
    forall k, p: Port | k in s'.urlMaps && C.RefersToService(s'.urlMaps[k].spec, B.Link(m, p))
      ensures Kept(s.urlMaps, s'.urlMaps, k)
    {
      assert forall q: Port :: n.Name(BackendService(q)) != m.Name(BackendService(p));
    }
  }

  lemma WritesKeepOtherProxies(l: string, preShared: string, s: C.Store, s': C.Store, m: Namer)
    requires Writes(MciNamer(l), preShared, s, s') && SelfContained(m, s) && NamesDiffer(MciNamer(l), m)
    ensures forall k :: k in s'.httpProxies && s'.httpProxies[k].spec.urlMap == U.Link(m) ==> k == m.Name(HttpProxy)
    ensures forall k :: k in s'.httpsProxies && s'.httpsProxies[k].spec.urlMap == U.Link(m) ==> k == m.Name(HttpsProxy)
    ensures forall k :: k in s'.forwardingRules && s'.forwardingRules[k].spec.target == T.HttpLink(m) ==>
              k == m.Name(HttpRule)
    ensures forall k :: k in s'.forwardingRules && s'.forwardingRules[k].spec.target == T.HttpsLink(m) ==>
              k == m.Name(HttpsRule)
  {
    hide Namer.Name, C.RefersToService, NothingLost, WroteService, WroteUrlMap;
    var n := MciNamer(l);
    assert n.Name(UrlMap) != m.Name(UrlMap);
    assert n.Name(HttpProxy) != m.Name(HttpProxy) && n.Name(HttpsProxy) != m.Name(HttpsProxy);
  }

  lemma WritesKeepOtherCerts(l: string, preShared: string, s: C.Store, s': C.Store, m: Namer)
    requires Writes(MciNamer(l), preShared, s, s') && SelfContained(m, s) && NamesDiffer(MciNamer(l), m)
    requires preShared != m.Name(SslCert)
    ensures forall k :: k in s'.httpsProxies && S.OwnLink(m) in s'.httpsProxies[k].spec.sslCertificates ==>
              k == m.Name(HttpsProxy)
  {
    hide Namer.Name, C.RefersToService, NothingLost, WroteService, WroteUrlMap, WroteHttpProxy, WroteRule;
    assert MciNamer(l).Name(SslCert) != m.Name(SslCert);
  }

  /** ... and every other one whose names differ, unless the ingress claims the
      other's certificate as a pre-shared one. */
  lemma WritesKeepOthers(l: string, preShared: string, s: C.Store, s': C.Store, m: Namer)
    requires Writes(MciNamer(l), preShared, s, s') && SelfContained(m, s)
    requires NamesDiffer(MciNamer(l), m) && preShared != m.Name(SslCert)
    ensures SelfContained(m, s')
  {
    hide Namer.Name, C.RefersToService, Writes, NamesDiffer;
    WritesKeepOtherServices(l, preShared, s, s', m);
    WritesKeepOtherProxies(l, preShared, s, s', m);
    WritesKeepOtherCerts(l, preShared, s, s', m);
  }

  // ---------- Removals and deletes do not add references ----------

  /** Every record that is left refers to no more than before. */
  ghost predicate RefersToNoMore(s: C.Store, s': C.Store) {
    && (forall k :: k in s'.backendServices ==>
          k in s.backendServices && s'.backendServices[k].spec.healthChecks == s.backendServices[k].spec.healthChecks)
    && (forall k :: k in s'.urlMaps ==>
          && k in s.urlMaps
          && s'.urlMaps[k].spec == s.urlMaps[k].spec.(description := s'.urlMaps[k].spec.description))
    && Extends(s'.httpProxies, s.httpProxies)
    && Extends(s'.httpsProxies, s.httpsProxies)
    && Extends(s'.forwardingRules, s.forwardingRules)
  }

  lemma StillSelfContained(n: Namer, s: C.Store, s': C.Store)
    requires SelfContained(n, s) && RefersToNoMore(s, s')
    ensures SelfContained(n, s')
  {
    hide Namer.Name;
    assert forall k, link :: k in s'.urlMaps ==>
          (C.RefersToService(s'.urlMaps[k].spec, link) <==> C.RefersToService(s.urlMaps[k].spec, link));
    hide C.RefersToService;
  }

  lemma ServicesReferNoMore(n: Namer, ports: seq<ServicePort>, drop: set<string>, t: C.Table<C.BackendService>,
                            t': C.Table<C.BackendService>,
                            err: Err, reliable: bool)
    requires B.RemovedFrom(n, ports, |ports|, drop, t, t', err, reliable)
    ensures forall k :: k in t' ==> k in t && t'[k].spec.healthChecks == t[k].spec.healthChecks
  {
    hide Namer.Name;
  }

  lemma RemovalRefers(a: Args, remove: set<string>, s: C.Store, s': C.Store, err: Err, r: Removal)
    requires RemoveRun(a, remove, s, s', err, r)
    ensures RefersToNoMore(s, s')
  {
    hide NodePorts, Namer.Name, GroupsKnown, GroupsOf, GroupSet, F.RemovedFrom, RemoveStops, StatusFound, B.RemovedFrom;
    if RemoveWent(a, remove, s, s', err, r) && GroupsKnown(a.w, remove) {
      ServicesReferNoMore(a.Namer(), r.ports, GroupSet(GroupsOf(a.w, remove)), s.backendServices, s'.backendServices,
                          r.beErr, a.reliable);
    }
  }

  lemma FrontShrinks(a: Args, s: C.Store, s': C.Store, e: DeleteErrs)
    requires FrontDeleted(a, s, s', e)
    ensures Extends(s'.urlMaps, s.urlMaps) && Extends(s'.httpProxies, s.httpProxies)
    ensures Extends(s'.httpsProxies, s.httpsProxies) && Extends(s'.forwardingRules, s.forwardingRules)
  {
    hide Namer.Name, C.ProxyInUse, C.SslCertificateInUse, C.UrlMapInUse;
  }

  lemma DeleteRefers(a: Args, s: C.Store, s': C.Store, err: Err, ports: seq<ServicePort>, e: DeleteErrs)
    requires DeleteRun(a, s, s', err, ports, e)
    ensures RefersToNoMore(s, s')
  {
    hide NodePorts, Namer.Name, FrontDeleted, B.Busy, H.Busy, B.PortNames, H.PortNames;
    if FrontDeleted(a, s, s', e) {
      FrontShrinks(a, s, s', e);
    }
  }

  // ---------- The order of deletion is safe ----------

  /** The command is for load balancer `l`, or for one that shares no name with
      it and does not claim its certificate as a pre-shared one. */
  ghost predicate Respects(e: Event, l: string) {
    e.a.lbName == l ||
        (NamesDiffer(MciNamer(e.a.lbName), MciNamer(l)) && e.a.ing.preSharedCert != MciNamer(l).Name(SslCert))
  }

  lemma StepKeepsSelfContained(e: Event, l: string, s: C.Store, s': C.Store)
    requires Happens(e, s, s') && Respects(e, l) && SelfContained(MciNamer(l), s)
    ensures SelfContained(MciNamer(l), s')
  {
    hide CreateRun, RemoveRun, DeleteRun, SelfContained, NamesDiffer, Namer.Name, Writes, RefersToNoMore;
    match e {
      case Created(a, err, run) =>
        CreateWrites(a, s, s', err, run);
        if a.lbName == l {
          WritesKeepOwn(l, a.ing.preSharedCert, s, s');
        } else {
          WritesKeepOthers(a.lbName, a.ing.preSharedCert, s, s', MciNamer(l));
        }
      case ClustersRemoved(a, remove, err, removal) =>
        RemovalRefers(a, remove, s, s', err, removal);
        StillSelfContained(MciNamer(l), s, s');
      case Deleted(a, err, ports, errs) =>
        DeleteRefers(a, s, s', err, ports, errs);
        StillSelfContained(MciNamer(l), s, s');
    }
  }

  lemma {:induction false} AlwaysSelfContained(events: seq<Event>, stores: seq<C.Store>, l: string, i: nat)
    requires History(events, stores) && SelfContained(MciNamer(l), stores[0])
    requires forall k :: 0 <= k < |events| ==> Respects(events[k], l)
    requires i < |stores|
    ensures SelfContained(MciNamer(l), stores[i])
  {
    hide Happens, SelfContained, Respects;
    if i > 0 {
      AlwaysSelfContained(events, stores, l, i - 1);
      assert Happens(events[i - 1], stores[i - 1], stores[i]) && Respects(events[i - 1], l);
      StepKeepsSelfContained(events[i - 1], l, stores[i - 1], stores[i]);
    }
  }

  /** After any history of commands, complete or failed at any point, on this
      and other load balancers: a delete that meets no failure but the refusal
      to delete what is in use returns no error, leaves nothing of this load
      balancer for its ports, and leaves everything else as it was. */
  lemma DeleteOrderIsSafe(events: seq<Event>, stores: seq<C.Store>, a: Args, s': C.Store, err: Err,
                          ports: seq<ServicePort>, e: DeleteErrs)
    requires History(events, stores) && SelfContained(a.Namer(), stores[0])
    requires forall k :: 0 <= k < |events| ==> Respects(events[k], a.lbName)
    requires DeleteRun(a, stores[|events|], s', err, ports, e) && a.reliable && a.clients != {}
    ensures err == Nil && s' == Remainder(a.Namer(), ports, stores[|events|])
  {
    hide Happens, SelfContained, Respects, NoOutsideUse, DeleteRun, Remainder;
    AlwaysSelfContained(events, stores, a.lbName, |events|);
    var s := stores[|events|];
    SelfContainedMeansNoOutsideUse(a.Namer(), ports, s);
    NoUseMeansNil(a, s, s', err, ports, e);
    NilDeleteIsComplete(a, s, s', ports, e);
  }

  lemma NoUseMeansNil(a: Args, s: C.Store, s': C.Store, err: Err, ports: seq<ServicePort>, e: DeleteErrs)
    requires DeleteRun(a, s, s', err, ports, e) && a.reliable && a.clients != {} && NoOutsideUse(a.Namer(), ports, s)
    ensures err == Nil
  {
    hide FrontDeleted, BackDeleted, NoOutsideUse, NodePorts;
    FrontSucceeds(a, s, s', ports, e);
    ServicesSucceed(a, s, s', ports, e);
    ChecksSucceed(a, s, s', ports, e);
  }

  /** The records of another load balancer that shares no name survive. */
  lemma OthersSurviveDelete(a: Args, m: Namer, s: C.Store, s': C.Store, err: Err, ports: seq<ServicePort>,
                            e: DeleteErrs, role: Role)
    requires DeleteRun(a, s, s', err, ports, e) && NamesDiffer(a.Namer(), m)
    ensures SameRecord(s, s', m.Name(role))
  {
    hide DeleteRun, Namer.Name;
    DeleteTouchesOnlyItsOwn(a, s, s', err, ports, e);
    var name := m.Name(role);
    assert name !in H.NameSet(a.Namer(), ports) && name !in B.NameSet(a.Namer(), ports) by {
      assert forall p: ServicePort :: a.Namer().Name(HealthCheck(p.nodePort)) != name &&
               a.Namer().Name(BackendService(p.nodePort)) != name;
    }
    assert forall r: Role :: a.Namer().Name(r) != name;
    Outside(s.healthChecks, s'.healthChecks, H.NameSet(a.Namer(), ports), name);
    Outside(s.backendServices, s'.backendServices, B.NameSet(a.Namer(), ports), name);
    Outside(s.urlMaps, s'.urlMaps, {a.Namer().Name(UrlMap)}, name);
    Outside(s.httpProxies, s'.httpProxies, {a.Namer().Name(HttpProxy)}, name);
    Outside(s.httpsProxies, s'.httpsProxies, {a.Namer().Name(HttpsProxy)}, name);
    Outside(s.sslCertificates, s'.sslCertificates, {a.Namer().Name(SslCert)}, name);
    Outside(s.forwardingRules, s'.forwardingRules, {a.Namer().Name(HttpRule), a.Namer().Name(HttpsRule)}, name);
    Outside(s.firewalls, s'.firewalls, {a.Namer().Name(Firewall)}, name);
  }

  ghost predicate SameRecord(s: C.Store, s': C.Store, name: string) {
    && SameAt(s.healthChecks, s'.healthChecks, name) && SameAt(s.backendServices, s'.backendServices, name)
    && SameAt(s.urlMaps, s'.urlMaps, name) && SameAt(s.httpProxies, s'.httpProxies, name)
    && SameAt(s.httpsProxies, s'.httpsProxies, name) && SameAt(s.sslCertificates, s'.sslCertificates, name)
    && SameAt(s.forwardingRules, s'.forwardingRules, name) && SameAt(s.firewalls, s'.firewalls, name)
  }

  lemma Outside<V>(t: C.Table<V>, t': C.Table<V>, names: set<string>, name: string)
    requires SameOutside(t, t', names) && name !in names
    ensures SameAt(t, t', name)
  {
    assert name in t <==> name in t - names;
    assert name in t' <==> name in t' - names;
    if name in t {
      assert t[name] == (t - names)[name] == (t' - names)[name];
    }
  }
}
