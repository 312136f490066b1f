/** What running create a second time does. Go iterates over maps in random
    order, so the second run sees the same clusters, groups and tags in another
    order. */
module Idempotence {
  import opened Prelude
  import opened Names
  import opened Ingress
  import opened Sorting
  import opened LoadBalancer
  import opened CreateRuns
  import opened Chains
  import Tr = Translation
  import C = Cloud
  import H = HealthChecks
  import P = ProbePaths
  import B = BackendServices
  import U = UrlMaps
  import T = TargetProxies
  import S = SslCerts
  import R = ForwardingRules
  import F = FirewallRules

  /** The clusters give the same answers, so that it does not matter which one
      a run happens to ask; and no port's probe path depends on the order. */
  ghost predicate Steady(a: Args, ports: seq<ServicePort>) {
    && (forall c :: c in a.clients ==> NodePorts(a.w, c, a.ing) == ports)
    && (forall c, d :: c in a.clients && d in a.clients ==> a.w.tlsSecret(c) == a.w.tlsSecret(d))
    && (forall i :: 0 <= i < |ports| ==> H.Probeable(a.w, a.clients, ports[i]))
    && (forall c, d :: c in GroupsOf(a.w, a.clients) && d in GroupsOf(a.w, a.clients) ==>
          a.w.NamedPorts(GroupsOf(a.w, a.clients)[c][0]) == a.w.NamedPorts(GroupsOf(a.w, a.clients)[d][0]))
  }

  /** At most one host with at most one path, for host and path rules are
      compared in the order in which they were written. */
  ghost predicate OneRoute(a: Args, ports: seq<ServicePort>) {
    Tr.SingleRoute(Tr.HostTable(a.ing.rules, B.ServiceMap(a.Namer(), ports)) - {Tr.DEFAULT_BACKEND_KEY})
  }

  /** Service ports with one node port agree on what its health check and
      backend service should be. */
  ghost predicate SameContent(a: Args, ports: seq<ServicePort>) {
    forall i, j :: 0 <= i < |ports| && 0 <= j < |ports| && ports[i].nodePort == ports[j].nodePort ==>
      H.SameWants(a.w, a.clients, ports[i], ports[j])
  }

  // What a forced create cannot change about proxies and rules that were there.

  /** A rule that differs in nothing updateForwardingRule compares has the
      wanted load balancing scheme as well. */
  predicate RuleSettled(t: C.Table<C.ForwardingRule>, name: string, want: C.ForwardingRule) {
    name in t && R.SameButProxy(t[name].spec, want) ==> t[name].spec.loadBalancingScheme == want.loadBalancingScheme
  }

  /** An HTTP proxy that was there has the wanted description. */
  predicate HttpSettled(a: Args, s: C.Store, ip: string) {
    var n := a.Namer();
    a.ing.allowHttp ==>
      && (n.Name(HttpProxy) in s.httpProxies ==>
            s.httpProxies[n.Name(HttpProxy)].spec.description == T.DesiredHttp(a.lbName, U.Link(n)).description)
      && RuleSettled(s.forwardingRules, n.Name(HttpRule), R.DesiredHttp(a.lbName, ip, T.HttpLink(n)))
  }

  function CertLink(a: Args): C.Link {
    if a.ing.preSharedCert != "" then C.SelfLink(C.SslCertificates, a.ing.preSharedCert) else S.OwnLink(a.Namer())
  }

  /** An HTTPS proxy that was there has the wanted description and certificate. */
  predicate HttpsSettled(a: Args, s: C.Store, ip: string) {
    var n := a.Namer();
    a.WantsHttps() ==>
      && (n.Name(HttpsProxy) in s.httpsProxies ==>
            && s.httpsProxies[n.Name(HttpsProxy)].spec.description ==
               T.DesiredHttps(a.lbName, U.Link(n), CertLink(a)).description
            && s.httpsProxies[n.Name(HttpsProxy)].spec.sslCertificates == [CertLink(a)])
      && RuleSettled(s.forwardingRules, n.Name(HttpsRule), R.DesiredHttps(a.lbName, ip, T.HttpsLink(n)))
  }

  /** The same command, up to the order of the clusters and the force flag. */
  ghost predicate SameInputs(a: Args, b: Args) {
    && b == a.(clusters := b.clusters, force := b.force, reliable := b.reliable, strict := b.strict)
    && multiset(b.clusters) == multiset(a.clusters)
  }

  /** The same command again, without force, in a cloud that works. */
  ghost predicate Again(a: Args, b: Args) {
    SameInputs(a, b) && !b.force && b.reliable
  }

  lemma SettledUnique<V>(t: C.Table<V>, wants: seq<C.Want<V>>)
    requires forall i :: 0 <= i < |wants| ==> C.Settled(t, wants, wants[i].name)
    requires forall i, j :: 0 <= i < |wants| && 0 <= j < |wants| && wants[i].name == wants[j].name ==>
               wants[i] == wants[j]
    ensures C.AllHold(t, wants)
  {
    forall i | 0 <= i < |wants| ensures C.Holds(t, wants[i]) {
      assert C.Settled(t, wants, wants[i].name);
    }
  }

  /** Ensuring what is already there does nothing and succeeds. */
  lemma NothingToDo<V>(t: C.Table<V>, t': C.Table<V>, wants: seq<C.Want<V>>, force: bool, ok: bool)
    requires C.ReconciledAll(t, t', wants, force, ok, true) && C.AllHold(t, wants)
    ensures t' == t && ok
  {
    hide C.Settled, C.Wanted;
    assert C.Compatible(t, wants) by {
      forall i, j | 0 <= i < |wants| && 0 <= j < |wants| && wants[i].name == wants[j].name
        ensures wants[i] == wants[j]
      {
        assert C.Holds(t, wants[i]) && C.Holds(t, wants[j]);
      }
    }
  }

  // ---------- A repeat changes nothing ----------

  lemma NoNewNames<V>(t: C.Table<V>, t': C.Table<V>, wants: seq<C.Want<V>>, ok: bool, reliable: bool)
    requires C.ReconciledAll(t, t', wants, false, ok, reliable)
    requires forall i :: 0 <= i < |wants| ==> wants[i].name in t
    ensures t' == t
  {
    hide C.AllHold, C.Compatible, C.Wanted;
    assert forall k :: k in t' ==> k in t;
  }

  lemma HealthUnmoved(b: Args, t: C.Table<C.HealthCheck>, t': C.Table<C.HealthCheck>, inp: Inputs, hc: HealthPart)
    requires HealthStage(b, t, t', inp, hc) && !b.force
    requires forall i :: 0 <= i < |inp.ports| ==> b.Namer().Name(HealthCheck(inp.ports[i].nodePort)) in t
    ensures t' == t
  {
    hide Namer.Name, H.Probeable, H.Link, H.Desired, C.ReconciledAll, Enumerates, P.PathInOrder;
    forall i | 0 <= i < |hc.wants| ensures hc.wants[i].name in t {
      var want := hc.wants[i];
      var j :| 0 <= j < |inp.ports| && H.WantFor(HcJob(b, inp), want, inp.ports[j]);
    }
    NoNewNames(t, t', hc.wants, hc.ok, b.reliable);
  }

  lemma BackendUnmoved(b: Args, t: C.Table<C.BackendService>, t': C.Table<C.BackendService>, inp: Inputs,
                       hc: HealthPart, ig: GroupPart, be: BackendPart)
    requires BackendStage(b, t, t', inp, hc, ig, be) && !b.force
    requires forall i :: 0 <= i < |inp.ports| ==> b.Namer().Name(BackendService(inp.ports[i].nodePort)) in t
    ensures t' == t
  {
    hide Namer.Name, B.Supplied, B.Desired, C.ReconciledAll, Enumerates, FlatMapped, B.ServiceMap, B.OwnServices,
         GroupFn;
    var job := BeJob(b, inp, hc, ig, be.groups);
    forall i | 0 <= i < |be.wants| ensures be.wants[i].name in t {
      var want := be.wants[i];
      var j :| 0 <= j < |inp.ports| && B.WantFor(job, want, inp.ports[j]);
    }
    NoNewNames(t, t', be.wants, be.ok, b.reliable);
  }

  lemma UrlMapUnmoved(b: Args, s: C.Store, s': C.Store, r: Run)
    requires UrlMapStage(b, s.urlMaps, s'.urlMaps, r.inp, r.be, r.um) && !b.force && b.Namer().Name(UrlMap) in s.urlMaps
    ensures s'.urlMaps == s.urlMaps
  {
    hide Namer.Name, U.Wanted, U.Translatable;
  }

  lemma FirewallUnmoved(b: Args, s: C.Store, s': C.Store, r: Run)
    requires FirewallStage(b, s.firewalls, s'.firewalls, r.inp, r.ig, r.fw) && !b.force
    requires b.Namer().Name(Firewall) in s.firewalls
    ensures s'.firewalls == s.firewalls
  {
    hide Namer.Name, F.Wanted, F.TagsKnown, F.Matches, F.Fill;
  }

  lemma HttpUnmoved(b: Args, s: C.Store, s': C.Store, r: Run)
    requires HttpStage(b, s.httpProxies, s'.httpProxies, s.forwardingRules, r.inp, r.um, r.http) && !b.force
    requires b.ing.allowHttp ==>
               b.Namer().Name(HttpProxy) in s.httpProxies && b.Namer().Name(HttpRule) in s.forwardingRules
    ensures s'.httpProxies == s.httpProxies && r.http.rules == s.forwardingRules
  {
    hide Namer.Name, T.DesiredHttp, R.DesiredHttp, T.PatchedHttp, R.Ensured;
  }

  lemma HttpsUnmoved(b: Args, s: C.Store, s': C.Store, r: Run)
    requires HttpsStage(b, s.sslCertificates, s'.sslCertificates, s.httpsProxies, s'.httpsProxies, s'.forwardingRules,
                        r.inp, r.um, r.http, r.https)
    requires !b.force && r.http.rules == s.forwardingRules
    requires b.WantsHttps() ==>
               b.Namer().Name(HttpsProxy) in s.httpsProxies && b.Namer().Name(HttpsRule) in s.forwardingRules
    requires b.WantsHttps() && b.ing.preSharedCert == "" ==> b.Namer().Name(SslCert) in s.sslCertificates
    ensures s'.httpsProxies == s.httpsProxies && s'.sslCertificates == s.sslCertificates
    ensures s'.forwardingRules == s.forwardingRules
  {
    hide Namer.Name, T.DesiredHttps, R.DesiredHttps, T.PatchedHttps, R.Ensured, S.Desired, S.Matches,
         C.SslCertificateInUse;
  }

  /** The names a successful create leaves for these ports. */
  ghost predicate AllNamesStored(a: Args, s: C.Store, ports: seq<ServicePort>) {
    var n := a.Namer();
    && (forall i :: 0 <= i < |ports| ==> n.Name(HealthCheck(ports[i].nodePort)) in s.healthChecks)
    && (forall i :: 0 <= i < |ports| ==> n.Name(BackendService(ports[i].nodePort)) in s.backendServices)
    && n.Name(UrlMap) in s.urlMaps && n.Name(Firewall) in s.firewalls
    && (a.ing.allowHttp ==> n.Name(HttpProxy) in s.httpProxies && n.Name(HttpRule) in s.forwardingRules)
    && (a.WantsHttps() ==> n.Name(HttpsProxy) in s.httpsProxies && n.Name(HttpsRule) in s.forwardingRules)
    && (a.WantsHttps() && a.ing.preSharedCert == "" ==> n.Name(SslCert) in s.sslCertificates)
  }

  lemma ChainStoresNames(a: Args, s0: C.Store, s: C.Store, inp: Inputs)
    requires CompleteChain(a, s0, s, inp)
    ensures AllNamesStored(a, s, inp.ports)
  {
    hide Namer.Name, ChecksPort, ServesPort, OpensPorts, OverAllGroups, FirstTags, StatusText,
         C.RefersToService;
    forall i | 0 <= i < |inp.ports|
      ensures a.Namer().Name(HealthCheck(inp.ports[i].nodePort)) in s.healthChecks
      ensures a.Namer().Name(BackendService(inp.ports[i].nodePort)) in s.backendServices
    {
      assert PortWired(a, s, inp.ports, inp.ports[i].nodePort);
    }
  }

  lemma SuccessStoresAllNames(a: Args, s: C.Store, s': C.Store, r: Run)
    requires CreateRun(a, s, s', Nil, r)
    ensures AllNamesStored(a, s', r.inp.ports)
  {
    hide HealthStage, GroupStage, BackendStage, UrlMapStage, HttpStage, HttpsStage, FirewallStage, InputStage,
         NodePorts, AddressOf, Namer.Name,
         CompleteChain, CertServed, AllNamesStored;
    SuccessfulCreateIsComplete(a, s, s', r);
    ChainStoresNames(a, s, s', r.inp);
  }

  lemma FullRunUnmoved(b: Args, s: C.Store, s': C.Store, err: Err, r: Run)
    requires FullRun(b, s, s', err, r) && !b.force && AllNamesStored(b, s, r.inp.ports)
    ensures s' == s
  {
    hide HealthStage, GroupStage, BackendStage, UrlMapStage, HttpStage, HttpsStage, FirewallStage, InputStage,
         Namer.Name;
    HealthUnmoved(b, s.healthChecks, s'.healthChecks, r.inp, r.hc);
    BackendUnmoved(b, s.backendServices, s'.backendServices, r.inp, r.hc, r.ig, r.be);
    UrlMapUnmoved(b, s, s', r);
    HttpUnmoved(b, s, s', r);
    HttpsUnmoved(b, s, s', r);
    FirewallUnmoved(b, s, s', r);
  }

  /** After a successful create, an unforced create of the same ingress and ports
      leaves the store as it is: in any world, in any order, whatever fails. */
  lemma RepeatChangesNothing(a: Args, b: Args, s: C.Store, s1: C.Store, s2: C.Store, err: Err, r: Run, r': Run)
    requires CreateRun(a, s, s1, Nil, r) && CreateRun(b, s1, s2, err, r')
    requires b.lbName == a.lbName && b.ing == a.ing && !b.force && r'.inp.ports == r.inp.ports
    ensures s2 == s1
  {
    hide HealthStage, GroupStage, InputStage, AddressOf, FullRun, Namer.Name;
    SuccessStoresAllNames(a, s, s1, r);
    if FullRun(b, s1, s2, err, r') {
      FullRunUnmoved(b, s1, s2, err, r');
    } else if HealthStage(b, s1.healthChecks, s2.healthChecks, r'.inp, r'.hc) {
      HealthUnmoved(b, s1.healthChecks, s2.healthChecks, r'.inp, r'.hc);
    }
  }

  // ---------- Health checks ----------

  lemma HealthWantsHold(a: Args, t: C.Table<C.HealthCheck>, t': C.Table<C.HealthCheck>, inp: Inputs, hc: HealthPart)
    requires HealthStage(a, t, t', inp, hc) && hc.err == Nil
    requires forall i :: 0 <= i < |inp.ports| ==> H.Probeable(a.w, a.clients, inp.ports[i])
    requires a.force ==> SameContent(a, inp.ports)
    ensures C.AllHold(t', hc.wants)
  {
    hide Namer.Name, H.Probeable, H.Link, H.Desired, C.AllHold, C.Settled, C.Wanted, C.Compatible, H.SameWants;
    var job := HcJob(a, inp);
    if a.force {
      forall i, j | 0 <= i < |hc.wants| && 0 <= j < |hc.wants| && hc.wants[i].name == hc.wants[j].name
        ensures hc.wants[i] == hc.wants[j]
      {
        assert H.WantFor(job, hc.wants[i], inp.ports[i]) && H.WantFor(job, hc.wants[j], inp.ports[j]);
        NameDeterminesRole(a.lbName, HealthCheck(inp.ports[i].nodePort), HealthCheck(inp.ports[j].nodePort));
        H.WantCarries(job, hc.wants[j], inp.ports[j], inp.ports[i]);
        H.WantUnique(job, hc.wants[i], hc.wants[j], inp.ports[i]);
      }
      SettledUnique(t', hc.wants);
    }
  }

  /** Where nothing was overwritten, success means that no two service ports of
      one node port disagreed. */
  lemma SuccessMeansSameContent(a: Args, t: C.Table<C.HealthCheck>, t': C.Table<C.HealthCheck>, inp: Inputs,
                                hc: HealthPart)
    requires HealthStage(a, t, t', inp, hc) && hc.err == Nil && !a.force
    requires forall i :: 0 <= i < |inp.ports| ==> H.Probeable(a.w, a.clients, inp.ports[i])
    ensures SameContent(a, inp.ports)
  {
    HealthWantsHold(a, t, t', inp, hc);
    ChecksListed(a, t, t', inp, hc);
    hide HealthStage, Namer.Name, H.Probeable, H.SameWants, H.Desired, Enumerates, P.PathInOrder;
    var job := HcJob(a, inp);
    forall i, j | 0 <= i < |inp.ports| && 0 <= j < |inp.ports| && inp.ports[i].nodePort == inp.ports[j].nodePort
      ensures H.SameWants(a.w, a.clients, inp.ports[i], inp.ports[j])
    {
      assert C.Holds(t', hc.wants[i]) && C.Holds(t', hc.wants[j]);
      H.EqualWants(job, hc.wants[i], inp.ports[i], inp.ports[j]);
    }
  }

  lemma ChecksListed(a: Args, t: C.Table<C.HealthCheck>, t': C.Table<C.HealthCheck>, inp: Inputs, hc: HealthPart)
    requires HealthStage(a, t, t', inp, hc)
    requires hc.err == Nil || forall i :: 0 <= i < |inp.ports| ==> H.Probeable(a.w, a.clients, inp.ports[i])
    ensures |hc.wants| == |inp.ports|
    ensures forall i :: 0 <= i < |inp.ports| ==> H.WantFor(HcJob(a, inp), hc.wants[i], inp.ports[i])
  {
    hide Namer.Name, H.Probeable, H.Link, H.WantFor, C.ReconciledAll, H.WantsAmong;
  }

  lemma SameHealthWants(a: Args, b: Args, t: C.Table<C.HealthCheck>, t1: C.Table<C.HealthCheck>,
                        t2: C.Table<C.HealthCheck>,
                        inp: Inputs, inp': Inputs, hc: HealthPart, hc': HealthPart)
    requires HealthStage(a, t, t1, inp, hc) && hc.err == Nil
    requires HealthStage(b, t1, t2, inp', hc') && Again(a, b) && inp'.ports == inp.ports
    requires forall i :: 0 <= i < |inp.ports| ==> H.Probeable(a.w, a.clients, inp.ports[i])
    ensures hc'.wants == hc.wants
  {
    hide Namer.Name, H.Probeable, H.Link, H.Desired, C.ReconciledAll;
    var job, job' := HcJob(a, inp), HcJob(b, inp');
    assert |hc.wants| == |hc'.wants| == |inp.ports|;
    forall i | 0 <= i < |inp.ports| ensures hc'.wants[i] == hc.wants[i] {
      assert H.WantFor(job, hc.wants[i], inp.ports[i]) && H.WantFor(job', hc'.wants[i], inp.ports[i]);
      assert H.WantFor(job, hc'.wants[i], inp.ports[i]);
      H.WantUnique(job, hc.wants[i], hc'.wants[i], inp.ports[i]);
    }
  }

  /** The links of the health checks of all ports were collected. */
  ghost predicate LinksAll(a: Args, inp: Inputs, hc: HealthPart) {
    forall i :: 0 <= i < |inp.ports| ==> LinkFor(a, hc, inp.ports[i].nodePort)
  }

  ghost predicate LinkFor(a: Args, hc: HealthPart, port: Port) {
    port in hc.hcs && hc.hcs[port] == C.SelfLink(C.HealthChecks, a.Namer().Name(HealthCheck(port)))
  }

  lemma HealthAgain(a: Args, b: Args, t: C.Table<C.HealthCheck>, t1: C.Table<C.HealthCheck>, t2: C.Table<C.HealthCheck>,
                    inp: Inputs, inp': Inputs, hc: HealthPart, hc': HealthPart)
    requires HealthStage(a, t, t1, inp, hc) && hc.err == Nil
    requires HealthStage(b, t1, t2, inp', hc') && Again(a, b) && inp'.ports == inp.ports
    requires forall i :: 0 <= i < |inp.ports| ==> H.Probeable(a.w, a.clients, inp.ports[i])
    requires a.force ==> SameContent(a, inp.ports)
    ensures t2 == t1 && hc'.err == Nil
    ensures LinksAll(a, inp, hc) && LinksAll(a, inp, hc')
  {
    hide Namer.Name, H.Probeable, H.WantFor, H.Desired, C.ReconciledAll, C.AllHold;
    HealthWantsHold(a, t, t1, inp, hc);
    SameHealthWants(a, b, t, t1, t2, inp, inp', hc, hc');
    NothingToDo(t1, t2, hc'.wants, b.force, hc'.ok);
  }

  // ---------- Backend services ----------

  lemma SameGroups(ig: GroupPart, be: BackendPart, be': BackendPart)
    requires Enumerates(be.order, ig.igs.Keys) && be.groups == FlatMapped(GroupFn(ig.igs), be.order)
    requires Enumerates(be'.order, ig.igs.Keys) && be'.groups == FlatMapped(GroupFn(ig.igs), be'.order)
    ensures Sort(be'.groups) == Sort(be.groups)
  {
    EnumerationsPermute(be'.order, be.order, ig.igs.Keys);
    FlatMappedPermute(GroupFn(ig.igs), be'.order, be.order);
    SortForgetsOrder(be'.groups, be.groups);
  }

  lemma BackendWantsHold(a: Args, t: C.Table<C.BackendService>, t': C.Table<C.BackendService>, inp: Inputs,
                         hc: HealthPart, ig: GroupPart, be: BackendPart)
    requires BackendStage(a, t, t', inp, hc, ig, be) && be.err == Nil
    requires a.force ==> SameContent(a, inp.ports)
    ensures C.AllHold(t', be.wants)
  {
    hide Namer.Name, B.Supplied, B.Desired, C.AllHold, C.Settled, C.Wanted, C.Compatible, Enumerates, FlatMapped,
         B.ServiceMap, B.OwnServices, GroupFn,
         H.SameWants;
    var job := BeJob(a, inp, hc, ig, be.groups);
    if a.force {
      forall i, j | 0 <= i < |be.wants| && 0 <= j < |be.wants| && be.wants[i].name == be.wants[j].name
        ensures be.wants[i] == be.wants[j]
      {
        assert B.WantFor(job, be.wants[i], inp.ports[i]) && B.WantFor(job, be.wants[j], inp.ports[j]);
        NameDeterminesRole(a.lbName, BackendService(inp.ports[i].nodePort), BackendService(inp.ports[j].nodePort));
        SamePortWants(a, job, be.wants[i], be.wants[j], inp.ports[i], inp.ports[j]);
      }
      SettledUnique(t', be.wants);
    }
  }

  lemma SamePortWants(a: Args, job: B.Job, want: C.Want<C.BackendService>, want': C.Want<C.BackendService>,
                      p: ServicePort, q: ServicePort)
    requires B.WantFor(job, want, p) && B.WantFor(job, want', q)
    requires p.nodePort == q.nodePort && H.SameWants(a.w, a.clients, p, q)
    ensures want == want'
  {
    hide Namer.Name, B.Refs, Sort, ServicePort.Description, P.PathInOrder;
  }

  /** The second run finds the same links and named ports and, up to order, the
      same groups; so it wants the same backend services. */
  lemma SameBackendWants(a: Args, b: Args, t: C.Table<C.BackendService>, t1: C.Table<C.BackendService>,
                         t2: C.Table<C.BackendService>,
                         inp: Inputs, inp': Inputs, hc: HealthPart, hc': HealthPart, ig: GroupPart, ig': GroupPart,
                         be: BackendPart, be': BackendPart)
    requires BackendStage(a, t, t1, inp, hc, ig, be) && be.err == Nil
    requires BackendStage(b, t1, t2, inp', hc', ig', be') && Again(a, b) && inp'.ports == inp.ports
    requires ig'.igs == ig.igs && ig'.namedPorts == ig.namedPorts
    requires LinksAll(a, inp, hc) && LinksAll(a, inp, hc')
    ensures be'.wants == be.wants
  {
    BackendGroups(a, t, t1, inp, hc, ig, be);
    BackendGroups(b, t1, t2, inp', hc', ig', be');
    SameGroups(ig, be, be');
    var job, job' := BeJob(a, inp, hc, ig, be.groups), BeJob(b, inp', hc', ig', be'.groups);
    WantsListed(a, t, t1, inp, hc, ig, be);
    forall i | 0 <= i < |inp.ports| ensures B.Supplied(job'.hcs, job'.namedPorts, inp.ports[i]) {
      assert LinkFor(a, hc', inp.ports[i].nodePort);
      StillSupplied(job, job', be.wants[i], inp.ports[i]);
    }
    WantsListed(b, t1, t2, inp', hc', ig', be');
    hide BackendStage, Namer.Name, Enumerates, FlatMapped, B.ServiceMap, B.OwnServices, GroupFn, Sort, B.WantFor,
         B.Supplied;
    forall i | 0 <= i < |inp.ports| ensures be'.wants[i] == be.wants[i] {
      assert LinkFor(a, hc, inp.ports[i].nodePort) && LinkFor(a, hc', inp.ports[i].nodePort);
      SameWant(job, job', be.wants[i], be'.wants[i], inp.ports[i]);
    }
  }

  lemma WantsListed(a: Args, t: C.Table<C.BackendService>, t': C.Table<C.BackendService>, inp: Inputs, hc: HealthPart,
                    ig: GroupPart, be: BackendPart)
    requires BackendStage(a, t, t', inp, hc, ig, be)
    requires be.err == Nil || forall i :: 0 <= i < |inp.ports| ==> B.Supplied(hc.hcs, ig.namedPorts, inp.ports[i])
    ensures |be.wants| == |inp.ports|
    ensures forall i :: 0 <= i < |inp.ports| ==> B.WantFor(BeJob(a, inp, hc, ig, be.groups), be.wants[i], inp.ports[i])
  {
    hide Namer.Name, C.ReconciledAll, Enumerates, FlatMapped, B.ServiceMap, B.OwnServices, GroupFn, B.WantsAmong,
         B.WantFor, B.Supplied;
  }

  lemma StillSupplied(job: B.Job, job': B.Job, want: C.Want<C.BackendService>, p: ServicePort)
    requires B.WantFor(job, want, p) && job'.namedPorts == job.namedPorts
    requires p.nodePort in job'.hcs && job'.hcs[p.nodePort] != C.NoLink
    ensures B.Supplied(job'.hcs, job'.namedPorts, p)
  {
  }

  lemma SameWant(job: B.Job, job': B.Job, want: C.Want<C.BackendService>, want': C.Want<C.BackendService>,
                 p: ServicePort)
    requires B.WantFor(job, want, p) && B.WantFor(job', want', p)
    requires job'.namer == job.namer && job'.lbName == job.lbName && job'.namedPorts == job.namedPorts
    requires Sort(job'.groups) == Sort(job.groups) && job'.hcs[p.nodePort] == job.hcs[p.nodePort]
    ensures want' == want
  {
    hide Sort, Namer.Name, B.Refs;
  }

  lemma BackendAgain(a: Args, b: Args, t: C.Table<C.BackendService>, t1: C.Table<C.BackendService>,
                     t2: C.Table<C.BackendService>,
                     inp: Inputs, inp': Inputs, hc: HealthPart, hc': HealthPart, ig: GroupPart, ig': GroupPart,
                     be: BackendPart, be': BackendPart)
    requires BackendStage(a, t, t1, inp, hc, ig, be) && be.err == Nil
    requires BackendStage(b, t1, t2, inp', hc', ig', be') && Again(a, b) && inp'.ports == inp.ports
    requires be'.wants == be.wants
    requires a.force ==> SameContent(a, inp.ports)
    ensures t2 == t1 && be'.err == Nil && be'.services == be.services
  {
    BackendWantsHold(a, t, t1, inp, hc, ig, be);
    BackendGroups(a, t, t1, inp, hc, ig, be);
    BackendGroups(b, t1, t2, inp', hc', ig', be');
    hide Namer.Name, B.WantFor, B.Supplied, C.ReconciledAll, C.AllHold, Enumerates, FlatMapped, B.ServiceMap,
         B.OwnServices, GroupFn, B.WantsAmong;
    NothingToDo(t1, t2, be'.wants, b.force, be'.ok);
  }

  // ---------- Everything in front of them ----------

  /** This run renders the URL map in the order of the stored one. */
  ghost predicate SameOrder(b: Args, s: C.Store, um: UrlMapPart) {
    var name := b.Namer().Name(UrlMap);
    name in s.urlMaps && um.want == Some(s.urlMaps[name].spec)
  }

  lemma UrlMapAgain(a: Args, b: Args, s: C.Store, s1: C.Store, s2: C.Store, r: Run, r': Run)
    requires UrlMapStage(a, s.urlMaps, s1.urlMaps, r.inp, r.be, r.um) && r.um.err == Nil
    requires UrlMapStage(b, s1.urlMaps, s2.urlMaps, r'.inp, r'.be, r'.um) && Again(a, b)
    ensures r.um.link == U.Link(a.Namer())
    ensures r'.um.err == Nil <==> SameOrder(b, s1, r'.um)
    ensures r'.um.err == Nil ==> r'.um.link == U.Link(a.Namer())
  {
    hide Namer.Name, U.Wanted, U.Translatable;
  }

  /** The second run changes nothing, and is content exactly if the first one
      got its way. */
  lemma ProxyAgain<V>(t: C.Table<V>, t1: C.Table<V>, t2: C.Table<V>, name: string, want: V, patched: V, patched': V,
                      force: bool, reliable: bool, err': Err)
    requires T.Outcome(t, t1, name, want, patched, force, Nil, reliable)
    requires T.Outcome(t1, t2, name, want, patched', false, err', true)
    ensures t2 == t1
    ensures err' == Nil <==> (if name in t then patched else want) == want
  {
  }

  lemma RuleAgain(t: C.Table<C.ForwardingRule>, t1: C.Table<C.ForwardingRule>, name: string, want: C.ForwardingRule,
                  force: bool, reliable: bool)
    requires R.Outcome(t, t1, name, want, force, Nil, reliable)
    ensures name in t1 && t1[name].spec.target == want.target
    ensures t1[name].spec == want <==> RuleSettled(t, name, want)
  {
    if force {
      R.Converges(t, t1, name, want, reliable);
    }
  }

  lemma RuleUnforced(t: C.Table<C.ForwardingRule>, t': C.Table<C.ForwardingRule>, name: string, want: C.ForwardingRule,
                     err: Err)
    requires R.Outcome(t, t', name, want, false, err, true) && name in t
    ensures t' == t && (err == Nil <==> t[name].spec == want)
  {
  }

  lemma HttpAgain(a: Args, b: Args, s: C.Store, s1: C.Store, s2: C.Store, r: Run, r': Run)
    requires HttpStage(a, s.httpProxies, s1.httpProxies, s.forwardingRules, r.inp, r.um, r.http)
    requires r.http.proxyErr == Nil && r.http.ruleErr == Nil
    requires HttpStage(b, s1.httpProxies, s2.httpProxies, s1.forwardingRules, r'.inp, r'.um, r'.http) && Again(a, b)
    requires r'.inp.ip == r.inp.ip && r'.um.link == r.um.link == U.Link(a.Namer())
    requires Kept(r.http.rules, s1.forwardingRules, a.Namer().Name(HttpRule)) ||
             a.Namer().Name(HttpRule) !in r.http.rules
    ensures s2.httpProxies == s1.httpProxies && r'.http.rules == s1.forwardingRules
    ensures r'.http.proxyErr == Nil && r'.http.ruleErr == Nil <==> HttpSettled(a, s, r.inp.ip)
  {
    hide Namer.Name, T.Outcome, R.Outcome, R.DesiredHttp, RuleSettled;
    if a.ing.allowHttp {
      var name, want := a.Namer().Name(HttpProxy), T.DesiredHttp(a.lbName, r.um.link);
      ProxyAgain(s.httpProxies, s1.httpProxies, s2.httpProxies, name, want, T.PatchedHttp(s.httpProxies, name, want),
                 T.PatchedHttp(s1.httpProxies, name, want), a.force, a.reliable, r'.http.proxyErr);
      var rule := a.Namer().Name(HttpRule);
      RuleAgain(s.forwardingRules, r.http.rules, rule, R.DesiredHttp(a.lbName, r.inp.ip, T.HttpLink(a.Namer())),
                a.force, a.reliable);
      RuleUnforced(s1.forwardingRules, r'.http.rules, rule, R.DesiredHttp(a.lbName, r.inp.ip, HttpTarget(b, r'.http)),
                   r'.http.ruleErr);
    }
  }

  lemma CertAgain(a: Args, b: Args, certs: C.Table<C.SslCertificate>, certs1: C.Table<C.SslCertificate>,
                  certs2: C.Table<C.SslCertificate>,
                  proxies: C.Table<C.HttpsProxy>, proxies1: C.Table<C.HttpsProxy>, r: Run, r': Run)
    requires CertStage(a, certs, certs1, proxies, r.inp, r.https) && r.https.certErr == Nil
    requires CertStage(b, certs1, certs2, proxies1, r'.inp, r'.https) && Again(a, b)
    requires a.w.tlsSecret(r.inp.client) == a.w.tlsSecret(r'.inp.client)
    ensures certs2 == certs1 && r'.https.certErr == Nil && r'.https.certLink == r.https.certLink == CertLink(a)
  {
    hide Namer.Name, S.Desired, C.SslCertificateInUse;
  }

  lemma HttpsAgain(a: Args, b: Args, s: C.Store, s1: C.Store, s2: C.Store, r: Run, r': Run)
    requires HttpsStage(a, s.sslCertificates, s1.sslCertificates, s.httpsProxies, s1.httpsProxies, s1.forwardingRules,
                        r.inp, r.um, r.http, r.https)
    requires r.https.certErr == Nil && r.https.proxyErr == Nil && r.https.ruleErr == Nil
    requires HttpsStage(b, s1.sslCertificates, s2.sslCertificates, s1.httpsProxies, s2.httpsProxies,
                        s2.forwardingRules, r'.inp, r'.um, r'.http, r'.https)
    requires Again(a, b) && r'.inp.ip == r.inp.ip && r'.um.link == r.um.link == U.Link(a.Namer())
    requires r'.http.rules == s1.forwardingRules
    requires a.w.tlsSecret(r.inp.client) == a.w.tlsSecret(r'.inp.client)
    requires SameAt(s.forwardingRules, r.http.rules, a.Namer().Name(HttpsRule))
    ensures s2.httpsProxies == s1.httpsProxies && s2.sslCertificates == s1.sslCertificates
    ensures s2.forwardingRules == s1.forwardingRules
    ensures r'.https.certErr == Nil && r'.https.proxyErr == Nil && r'.https.ruleErr == Nil <==>
              HttpsSettled(a, s, r.inp.ip)
  {
    hide Namer.Name, T.Outcome, R.Outcome, R.DesiredHttps, CertStage, CertLink;
    if a.WantsHttps() {
      CertAgain(a, b, s.sslCertificates, s1.sslCertificates, s2.sslCertificates, s.httpsProxies, s1.httpsProxies, r,
                r');
      var name, want := a.Namer().Name(HttpsProxy), T.DesiredHttps(a.lbName, r.um.link, CertLink(a));
      ProxyAgain(s.httpsProxies, s1.httpsProxies, s2.httpsProxies, name, want,
                 T.PatchedHttps(s.httpsProxies, name, want),
                 T.PatchedHttps(s1.httpsProxies, name, want), a.force, a.reliable, r'.https.proxyErr);
      var rule := a.Namer().Name(HttpsRule);
      RuleAgain(r.http.rules, s1.forwardingRules, rule, R.DesiredHttps(a.lbName, r.inp.ip, T.HttpsLink(a.Namer())),
                a.force, a.reliable);
      RuleUnforced(s1.forwardingRules, s2.forwardingRules, rule,
                   R.DesiredHttps(a.lbName, r.inp.ip, HttpsTarget(b, r'.https)), r'.https.ruleErr);
      hide R.SameButProxy;
    }
  }

  lemma FirewallAgain(a: Args, b: Args, t: C.Table<C.Firewall>, t1: C.Table<C.Firewall>, t2: C.Table<C.Firewall>,
                      r: Run, r': Run)
    requires FirewallStage(a, t, t1, r.inp, r.ig, r.fw) && r.fw.err == Nil
    requires FirewallStage(b, t1, t2, r'.inp, r'.ig, r'.fw) && Again(a, b)
    requires r'.inp.ports == r.inp.ports && r'.ig.igs == r.ig.igs
    ensures t2 == t1 && r'.fw.err == Nil
  {
    hide Namer.Name, F.TagsKnown, F.Fill;
    F.WantedByEither(FwJob(b, r'.inp, r'.ig), FwJob(a, r.inp, r.ig), r'.fw.want.value);
    F.WantedUnique(FwJob(a, r.inp, r.ig), r.fw.want.value, r'.fw.want.value);
  }

  // ---------- The whole run ----------

  /** Where all groups agree on named ports, the second run finds those of the
      first. */
  lemma GroupsAgain(a: Args, b: Args, ports: seq<ServicePort>, ig: GroupPart, ig': GroupPart)
    requires GroupStage(a, ig) && ig.err == Nil && ig.igs != map[] && ig.namedPorts != map[]
    requires GroupStage(b, ig') && SameInputs(a, b) && Steady(a, ports)
    ensures ig'.igs == ig.igs && ig'.err == Nil && ig'.namedPorts == ig.namedPorts
  {
    hide NodePorts, H.Probeable, World.NamedPorts;
    var c :| c in ig.igs && a.w.NamedPorts(ig.igs[c][0]) == Some(ig.namedPorts);
    assert forall d :: d in ig.igs ==> a.w.NamedPorts(ig.igs[d][0]) == Some(ig.namedPorts);
  }

  /** A second run, from any store, does not give up early. */
  lemma ReachesTheEnd(a: Args, b: Args, s: C.Store, s1: C.Store, t: C.Store, t': C.Store, ports: seq<ServicePort>,
                      err: Err, r: Run, r': Run)
    requires FullRun(a, s, s1, Nil, r) && CreateRun(b, t, t', err, r') && SameInputs(a, b) && Steady(a, ports)
    ensures FullRun(b, t, t', err, r')
    ensures r.inp.ports == r'.inp.ports == ports && r'.inp.ip == r.inp.ip
    ensures a.w.tlsSecret(r.inp.client) == a.w.tlsSecret(r'.inp.client)
    ensures r'.ig.igs == r.ig.igs && r'.ig.err == Nil && r'.ig.namedPorts == r.ig.namedPorts
  {
    hide HealthStage, GroupStage, BackendStage, UrlMapStage, HttpStage, HttpsStage, FirewallStage, NodePorts, AddressOf,
         H.Probeable, GroupsOf;
    if GroupStage(b, r'.ig) {
      GroupsAgain(a, b, ports, r.ig, r'.ig);
    }
  }

  lemma BackAgain(a: Args, b: Args, s: C.Store, s1: C.Store, s2: C.Store, ports: seq<ServicePort>, err: Err, r: Run,
                  r': Run)
    requires FullRun(a, s, s1, Nil, r) && FullRun(b, s1, s2, err, r') && Again(a, b)
    requires r.inp.ports == r'.inp.ports == ports && r'.ig.igs == r.ig.igs && r'.ig.namedPorts == r.ig.namedPorts
    requires forall i :: 0 <= i < |ports| ==> H.Probeable(a.w, a.clients, ports[i])
    requires a.force ==> SameContent(a, ports)
    ensures s2.healthChecks == s1.healthChecks && s2.backendServices == s1.backendServices
    ensures r'.hc.err == Nil && r'.be.err == Nil && r'.be.services == r.be.services == B.ServiceMap(a.Namer(), ports)
  {
    hide HealthStage, GroupStage, BackendStage, UrlMapStage, HttpStage, HttpsStage, FirewallStage, InputStage,
         H.Probeable, B.ServiceMap,
         LinksAll, B.OwnServices, Enumerates, FlatMapped, Namer.Name;
    HealthAgain(a, b, s.healthChecks, s1.healthChecks, s2.healthChecks, r.inp, r'.inp, r.hc, r'.hc);
    SameBackendWants(a, b, s.backendServices, s1.backendServices, s2.backendServices, r.inp, r'.inp, r.hc, r'.hc, r.ig,
                     r'.ig, r.be, r'.be);
    BackendAgain(a, b, s.backendServices, s1.backendServices, s2.backendServices, r.inp, r'.inp, r.hc, r'.hc, r.ig,
                 r'.ig, r.be, r'.be);
    BackendGroups(a, s.backendServices, s1.backendServices, r.inp, r.hc, r.ig, r.be);
  }

  lemma FrontAgain(a: Args, b: Args, s: C.Store, s1: C.Store, s2: C.Store, err: Err, r: Run, r': Run)
    requires FullRun(a, s, s1, Nil, r) && FullRun(b, s1, s2, err, r') && Again(a, b)
    requires r'.inp.ip == r.inp.ip && a.w.tlsSecret(r.inp.client) == a.w.tlsSecret(r'.inp.client)
    ensures r'.um.err == Nil <==> SameOrder(b, s1, r'.um)
    ensures r'.um.err == Nil ==> (r'.http.proxyErr == Nil && r'.http.ruleErr == Nil <==> HttpSettled(a, s, r.inp.ip))
    ensures r'.um.err == Nil ==>
              (r'.https.certErr == Nil && r'.https.proxyErr == Nil && r'.https.ruleErr == Nil <==>
                    HttpsSettled(a, s, r.inp.ip))
  {
    hide HealthStage, GroupStage, BackendStage, UrlMapStage, HttpStage, HttpsStage, FirewallStage, InputStage,
         Namer.Name, U.Link, HttpSettled, HttpsSettled, SameAt, SameOrder;
    UrlMapAgain(a, b, s, s1, s2, r, r');
    if r'.um.err == Nil {
      HttpRuleKept(a, s, s1, r);
      HttpAgain(a, b, s, s1, s2, r, r');
      HttpsRuleSame(a, s, s1, r);
      HttpsAgain(a, b, s, s1, s2, r, r');
    }
  }

  /** What a second create returns: no error exactly if service ports of one node
      port agree, if this run happens to render the URL map in the stored order,
      and if the first run, should it have been forced, found no proxy or rule
      with a difference that force does not repair. The store stays as it is. */
  lemma CreateIsIdempotent(a: Args, b: Args, s: C.Store, s1: C.Store, s2: C.Store, ports: seq<ServicePort>, err: Err,
                           r: Run, r': Run)
    requires CreateRun(a, s, s1, Nil, r) && CreateRun(b, s1, s2, err, r') && Again(a, b) && Steady(a, ports)
    ensures s2 == s1
    ensures err == Nil <==>
            SameContent(a, ports) && SameOrder(b, s1, r'.um) && HttpSettled(a, s, r.inp.ip) &&
                HttpsSettled(a, s, r.inp.ip)
  {
    hide FullRun, H.SameWants, B.ServiceMap, H.Probeable, NodePorts, GroupsOf, HttpSettled, HttpsSettled, SameOrder;
    ReachesTheEnd(a, b, s, s1, s1, s2, ports, err, r, r');
    RepeatChangesNothing(a, b, s, s1, s2, err, r, r');
    FrontAgain(a, b, s, s1, s2, err, r, r');
    FirewallTableAgain(a, b, s, s1, s2, err, r, r');
    ErrorsDecide(b, s1, s2, err, r');
    if SameContent(a, ports) {
      BackAgain(a, b, s, s1, s2, ports, err, r, r');
    } else if err == Nil {
      HealthTellsContent(b, s1, s2, err, r');
    }
  }

  lemma HealthTellsContent(b: Args, s: C.Store, s': C.Store, err: Err, r: Run)
    requires FullRun(b, s, s', err, r) && r.hc.err == Nil && !b.force
    requires forall i :: 0 <= i < |r.inp.ports| ==> H.Probeable(b.w, b.clients, r.inp.ports[i])
    ensures SameContent(b, r.inp.ports)
  {
    hide HealthStage, GroupStage, BackendStage, UrlMapStage, HttpStage, HttpsStage, FirewallStage, InputStage,
         H.Probeable, SameContent;
    SuccessMeansSameContent(b, s.healthChecks, s'.healthChecks, r.inp, r.hc);
  }

  /** An unforced success found everything as wanted, and so there is nothing
      left over; nor is there if the names were absent. */
  lemma SettledStarts(a: Args, s: C.Store, s': C.Store, r: Run)
    requires CreateRun(a, s, s', Nil, r) && (!a.force || Absent(a.Namer(), s))
    ensures HttpSettled(a, s, r.inp.ip) && HttpsSettled(a, s, r.inp.ip)
  {
    hide HealthStage, GroupStage, BackendStage, UrlMapStage, HttpStage, HttpsStage, FirewallStage, InputStage,
         Namer.Name, HttpSettled, HttpsSettled, AddressOf;
    if Absent(a.Namer(), s) {
      AbsentIsSettled(a, s, r.inp.ip);
    } else {
      UrlMapChain(a, s, s', r);
      HttpsRuleSame(a, s, s', r);
      UnforcedIsSettled(a, s, s', r);
    }
  }

  lemma AbsentIsSettled(a: Args, s: C.Store, ip: string)
    requires Absent(a.Namer(), s)
    ensures HttpSettled(a, s, ip) && HttpsSettled(a, s, ip)
  {
    hide Namer.Name;
  }

  lemma UnforcedIsSettled(a: Args, s: C.Store, s': C.Store, r: Run)
    requires !a.force && r.um.link == U.Link(a.Namer())
    requires HttpStage(a, s.httpProxies, s'.httpProxies, s.forwardingRules, r.inp, r.um, r.http)
    requires r.http.proxyErr == Nil && r.http.ruleErr == Nil
    requires HttpsStage(a, s.sslCertificates, s'.sslCertificates, s.httpsProxies, s'.httpsProxies, s'.forwardingRules,
                        r.inp, r.um, r.http, r.https)
    requires r.https.certErr == Nil && r.https.proxyErr == Nil && r.https.ruleErr == Nil
    requires SameAt(s.forwardingRules, r.http.rules, a.Namer().Name(HttpsRule))
    ensures HttpSettled(a, s, r.inp.ip) && HttpsSettled(a, s, r.inp.ip)
  {
    hide Namer.Name, S.Desired, S.Outcome, C.SslCertificateInUse, R.DesiredHttp, R.DesiredHttps, R.SameButProxy;
  }

  lemma FirewallTableAgain(a: Args, b: Args, s: C.Store, s1: C.Store, s2: C.Store, err: Err, r: Run, r': Run)
    requires FullRun(a, s, s1, Nil, r) && FullRun(b, s1, s2, err, r') && Again(a, b)
    requires r'.inp.ports == r.inp.ports && r'.ig.igs == r.ig.igs
    ensures s2.firewalls == s1.firewalls && r'.fw.err == Nil
  {
    hide HealthStage, GroupStage, BackendStage, UrlMapStage, HttpStage, HttpsStage, FirewallStage, InputStage;
    FirewallAgain(a, b, s.firewalls, s1.firewalls, s2.firewalls, r, r');
  }

  lemma ErrorsDecide(a: Args, s: C.Store, s': C.Store, err: Err, r: Run)
    requires FullRun(a, s, s', err, r)
    ensures err == Nil <==> NoErrors(r)
  {
  }

  // ---------- Every order ----------

  // For every order in which the URL map can be rendered there is a second run
  // that renders it so.

  lemma ReconciledIdle<V>(t: C.Table<V>, wants: seq<C.Want<V>>, ok: bool)
    requires forall i :: 0 <= i < |wants| ==> wants[i].name in t
    requires ok == C.AllHold(t, wants)
    ensures C.ReconciledAll(t, t, wants, false, ok, true)
  {
    if ok {
      forall i | 0 <= i < |wants| ensures C.Settled(t, wants, wants[i].name) {
        assert C.Holds(t, wants[i]);
      }
    }
  }

  lemma RepeatHealth(a: Args, b: Args, t: C.Table<C.HealthCheck>, t1: C.Table<C.HealthCheck>, inp: Inputs,
                     hc: HealthPart)
    returns (hc': HealthPart)
    requires HealthStage(a, t, t1, inp, hc) && hc.err == Nil && Again(a, b)
    requires forall i :: 0 <= i < |inp.ports| ==> a.Namer().Name(HealthCheck(inp.ports[i].nodePort)) in t1
    ensures HealthStage(b, t1, t1, inp, hc') && hc'.hcs == hc.hcs
  {
    hide Namer.Name, H.Probeable, H.Link, H.WantFor, H.WantsFor, H.WantsAmong, C.ReconciledAll, C.AllHold;
    ChecksListed(a, t, t1, inp, hc);
    RepeatCheckWants(HcJob(a, inp), HcJob(b, inp), hc.wants, t1);
    var ok := C.AllHold(t1, hc.wants);
    hc' := hc.(ok := ok, err := if ok then Nil else Other);
    ReconciledIdle(t1, hc.wants, ok);
  }

  lemma RepeatCheckWants(job: H.Job, job': H.Job, wants: seq<C.Want<C.HealthCheck>>, t: C.Table<C.HealthCheck>)
    requires job' == job.(force := job'.force, reliable := job'.reliable) && |wants| == |job.ports|
    requires forall i :: 0 <= i < |wants| ==> H.WantFor(job, wants[i], job.ports[i])
    requires forall i :: 0 <= i < |job.ports| ==> job.namer.Name(HealthCheck(job.ports[i].nodePort)) in t
    ensures H.WantsFor(job', wants, |wants|) && H.WantsAmong(job', wants)
    ensures forall i :: 0 <= i < |wants| ==> wants[i].name in t
  {
    hide H.WantFor, Namer.Name;
    forall i | 0 <= i < |wants| ensures wants[i].name in t && H.WantFor(job', wants[i], job'.ports[i]) {
      SameCheckJob(job, job', wants[i], job.ports[i]);
    }
    H.ListedAreAmong(job', wants, |wants|);
  }

  lemma SameCheckJob(job: H.Job, job': H.Job, want: C.Want<C.HealthCheck>, p: ServicePort)
    requires H.WantFor(job, want, p) && job' == job.(force := job'.force, reliable := job'.reliable)
    ensures H.WantFor(job', want, p) && want.name == job.namer.Name(HealthCheck(p.nodePort))
  {
    hide Namer.Name, Enumerates, P.PathInOrder, H.Desired;
  }

  lemma RepeatBackend(a: Args, b: Args, t: C.Table<C.BackendService>, t1: C.Table<C.BackendService>, inp: Inputs,
                      hc: HealthPart, hc': HealthPart, ig: GroupPart, be: BackendPart)
    returns (be': BackendPart)
    requires BackendStage(a, t, t1, inp, hc, ig, be) && be.err == Nil && Again(a, b) && hc'.hcs == hc.hcs
    requires forall i :: 0 <= i < |inp.ports| ==> a.Namer().Name(BackendService(inp.ports[i].nodePort)) in t1
    ensures BackendStage(b, t1, t1, inp, hc', ig, be') && be'.services == be.services
  {
    hide Namer.Name, B.Supplied, B.WantFor, B.WantsFor, B.WantsAmong, C.ReconciledAll, Enumerates, FlatMapped,
         B.ServiceMap, GroupFn,
         C.AllHold, B.Link;
    WantsListed(a, t, t1, inp, hc, ig, be);
    var job, job' := BeJob(a, inp, hc, ig, be.groups), BeJob(b, inp, hc', ig, be.groups);
    RepeatServiceWants(job, job', be.wants, t1);
    var ok := C.AllHold(t1, be.wants);
    be' := be.(ok := ok, err := if ok then Nil else Other);
    ReconciledIdle(t1, be.wants, ok);
  }

  lemma RepeatServiceWants(job: B.Job, job': B.Job, wants: seq<C.Want<C.BackendService>>, t: C.Table<C.BackendService>)
    requires job' == job.(force := job'.force, reliable := job'.reliable) && |wants| == |job.ports|
    requires forall i :: 0 <= i < |wants| ==> B.WantFor(job, wants[i], job.ports[i])
    requires forall i :: 0 <= i < |job.ports| ==> job.namer.Name(BackendService(job.ports[i].nodePort)) in t
    ensures B.WantsFor(job', wants, |wants|) && B.WantsAmong(job', wants)
    ensures forall i :: 0 <= i < |wants| ==> wants[i].name in t
  {
    hide B.WantFor, Namer.Name;
    forall i | 0 <= i < |wants| ensures wants[i].name in t && B.WantFor(job', wants[i], job'.ports[i]) {
      SameServiceJob(job, job', wants[i], job.ports[i]);
    }
    B.ListedAreAmong(job', wants, |wants|);
  }

  lemma SameServiceJob(job: B.Job, job': B.Job, want: C.Want<C.BackendService>, p: ServicePort)
    requires B.WantFor(job, want, p) && job' == job.(force := job'.force, reliable := job'.reliable)
    ensures B.WantFor(job', want, p) && want.name == job.namer.Name(BackendService(p.nodePort))
  {
    hide Namer.Name, B.Desired;
  }

  lemma RepeatUrlMap(b: Args, t: C.Table<C.UrlMap>, inp: Inputs, be: BackendPart,
                     want: C.UrlMap) returns (um: UrlMapPart)
    requires b.Namer().Name(UrlMap) in t && !b.force && b.reliable && U.Wanted(UmJob(b, inp, be.services), want)
    ensures UrlMapStage(b, t, t, inp, be, um) && um.want == Some(want)
  {
    hide Namer.Name, Tr.AllFound, MentionedBackends;
    var same := t[b.Namer().Name(UrlMap)].spec == want;
    um := UrlMapPart(if same then U.Link(b.Namer()) else C.NoLink, if same then Nil else Other, Some(want));
  }

  lemma RepeatHttp(b: Args, s: C.Store, inp: Inputs, um: UrlMapPart) returns (http: HttpPart)
    requires !b.force && b.reliable
    requires b.ing.allowHttp ==>
               b.Namer().Name(HttpProxy) in s.httpProxies && b.Namer().Name(HttpRule) in s.forwardingRules
    ensures HttpStage(b, s.httpProxies, s.httpProxies, s.forwardingRules, inp, um, http)
    ensures http.rules == s.forwardingRules
  {
    http := HttpPart(Nil, Nil, s.forwardingRules);
    if b.ing.allowHttp {
      var want := T.DesiredHttp(b.lbName, um.link);
      http := http.(proxyErr := if s.httpProxies[b.Namer().Name(HttpProxy)].spec == want then Nil else Other);
      var rule := R.DesiredHttp(b.lbName, inp.ip, HttpTarget(b, http));
      http := http.(ruleErr := if s.forwardingRules[b.Namer().Name(HttpRule)].spec == rule then Nil else Other);
      hide Namer.Name, R.DesiredHttp, T.DesiredHttp;
    }
  }

  lemma RepeatCert(a: Args, b: Args, certs: C.Table<C.SslCertificate>, certs1: C.Table<C.SslCertificate>,
                   proxies: C.Table<C.HttpsProxy>, proxies1: C.Table<C.HttpsProxy>, inp: Inputs, https: HttpsPart)
    requires CertStage(a, certs, certs1, proxies, inp, https) && https.certErr == Nil && Again(a, b)
    ensures CertStage(b, certs1, certs1, proxies1, inp, https)
  {
    hide Namer.Name, S.Desired, C.SslCertificateInUse;
  }

  lemma RepeatHttps(a: Args, b: Args, s: C.Store, s1: C.Store, r: Run, um: UrlMapPart,
                    http: HttpPart) returns (https: HttpsPart)
    requires HttpsStage(a, s.sslCertificates, s1.sslCertificates, s.httpsProxies, s1.httpsProxies, s1.forwardingRules,
                        r.inp, r.um, r.http, r.https)
    requires r.https.certErr == Nil && Again(a, b) && http.rules == s1.forwardingRules
    requires a.WantsHttps() ==>
               a.Namer().Name(HttpsProxy) in s1.httpsProxies && a.Namer().Name(HttpsRule) in s1.forwardingRules
    ensures HttpsStage(b, s1.sslCertificates, s1.sslCertificates, s1.httpsProxies, s1.httpsProxies, s1.forwardingRules,
                       r.inp, um, http, https)
  {
    https := HttpsPart(r.https.certLink, Nil, Nil, Nil);
    hide Namer.Name, CertStage;
    if a.WantsHttps() {
      var want := T.DesiredHttps(b.lbName, um.link, https.certLink);
      https := https.(proxyErr := if s1.httpsProxies[b.Namer().Name(HttpsProxy)].spec == want then Nil else Other);
      var rule := R.DesiredHttps(b.lbName, r.inp.ip, HttpsTarget(b, https));
      https := https.(ruleErr := if s1.forwardingRules[b.Namer().Name(HttpsRule)].spec == rule then Nil else Other);
      hide R.DesiredHttps, T.DesiredHttps;
      RepeatCert(a, b, s.sslCertificates, s1.sslCertificates, s.httpsProxies, s1.httpsProxies, r.inp, r.https);
      SameCert(b, s1.sslCertificates, s1.httpsProxies, r.inp, r.https, https);
    }
  }

  lemma SameCert(b: Args, certs: C.Table<C.SslCertificate>, proxies: C.Table<C.HttpsProxy>, inp: Inputs, x: HttpsPart,
                 y: HttpsPart)
    requires CertStage(b, certs, certs, proxies, inp, x) && x.certErr == y.certErr && x.certLink == y.certLink
    ensures CertStage(b, certs, certs, proxies, inp, y)
  {
    hide Namer.Name, S.Outcome, C.SslCertificateInUse;
  }

  lemma RepeatFirewall(a: Args, b: Args, t: C.Table<C.Firewall>, t1: C.Table<C.Firewall>, inp: Inputs, ig: GroupPart,
                       fw: FirewallPart)
    requires FirewallStage(a, t, t1, inp, ig, fw) && fw.err == Nil && Again(a, b)
    ensures FirewallStage(b, t1, t1, inp, ig, fw)
  {
    hide Namer.Name, F.TagsKnown, F.Fill, F.Desired, Enumerates, Mapped, F.TagOf;
  }

  lemma RepeatRun(a: Args, b: Args, s: C.Store, s1: C.Store, r: Run, want: C.UrlMap) returns (err: Err, r': Run)
    requires FullRun(a, s, s1, Nil, r) && Again(a, b) && AllNamesStored(a, s1, r.inp.ports)
    requires U.Wanted(UmJob(b, r.inp, r.be.services), want)
    ensures FullRun(b, s1, s1, err, r') && r'.um.want == Some(want)
  {
    hide HealthStage, BackendStage, UrlMapStage, HttpStage, HttpsStage, FirewallStage, U.Wanted, NodePorts, AddressOf,
         Namer.Name;
    var hc := RepeatHealth(a, b, s.healthChecks, s1.healthChecks, r.inp, r.hc);
    var be := RepeatBackend(a, b, s.backendServices, s1.backendServices, r.inp, r.hc, hc, r.ig, r.be);
    var um := RepeatUrlMap(b, s1.urlMaps, r.inp, be, want);
    var http := RepeatHttp(b, s1, r.inp, um);
    var https := RepeatHttps(a, b, s, s1, r, um, http);
    RepeatFirewall(a, b, s.firewalls, s1.firewalls, r.inp, r.ig, r.fw);
    r' := Run(r.inp, hc, r.ig, be, um, http, https, r.fw);
    err := if NoErrors(r') then Nil else Other;
    SameGroupStage(a, b, r.ig);
  }

  lemma SameGroupStage(a: Args, b: Args, ig: GroupPart)
    requires GroupStage(a, ig) && Again(a, b)
    ensures GroupStage(b, ig)
  {
    hide World.NamedPorts;
  }

  lemma StoredIsWanted(a: Args, b: Args, s: C.Store, s1: C.Store, r: Run)
    requires UrlMapStage(a, s.urlMaps, s1.urlMaps, r.inp, r.be, r.um) && r.um.err == Nil && Again(a, b)
    ensures a.Namer().Name(UrlMap) in s1.urlMaps
    ensures U.Wanted(UmJob(b, r.inp, r.be.services), s1.urlMaps[a.Namer().Name(UrlMap)].spec)
  {
    SortForgetsOrder(a.clusters, b.clusters);
    hide Namer.Name, Tr.Translates, Sort, U.Translatable;
  }

  /** With more than one route there is another URL map to want. */
  lemma OtherWanted(job: U.Job, want: C.UrlMap) returns (other: C.UrlMap)
    requires U.Wanted(job, want)
    requires !Tr.SingleRoute(Tr.HostTable(job.ing.rules, job.services) - {Tr.DEFAULT_BACKEND_KEY})
    ensures U.Wanted(job, other) && other != want
  {
    var routes := Tr.HostTable(job.ing.rules, job.services) - {Tr.DEFAULT_BACKEND_KEY};
    Tr.OrderSensitivity(want, routes, job.hash);
    hide Tr.SingleRoute, Tr.HostTable, Tr.Lists;
    other :| Tr.Lists(other, routes, job.hash) && other.description == want.description &&
        other.defaultService == want.defaultService
      && other != want;
  }

  /** With one route every run renders the stored URL map. */
  lemma OneRouteMeansSameOrder(a: Args, b: Args, s: C.Store, s1: C.Store, s2: C.Store, ports: seq<ServicePort>,
                               err: Err, r: Run, r': Run)
    requires FullRun(a, s, s1, Nil, r) && FullRun(b, s1, s2, err, r') && Again(a, b) && OneRoute(a, ports)
    requires r'.inp.ip == r.inp.ip && r'.be.services == r.be.services == B.ServiceMap(a.Namer(), ports)
    ensures SameOrder(b, s1, r'.um)
  {
    hide HealthStage, GroupStage, BackendStage, HttpStage, HttpsStage, FirewallStage, InputStage, Namer.Name,
         Tr.Translates, Tr.SingleRoute,
         Tr.HostTable, B.ServiceMap, Tr.AllFound, MentionedBackends;
    StoredIsWanted(a, b, s, s1, r);
    var stored := s1.urlMaps[a.Namer().Name(UrlMap)].spec;
    U.WantedUnique(UmJob(b, r.inp, r.be.services), stored, r'.um.want.value);
  }

  lemma EnoughForNil(a: Args, b: Args, s: C.Store, s1: C.Store, s2: C.Store, ports: seq<ServicePort>, err: Err, r: Run,
                     r': Run)
    requires CreateRun(a, s, s1, Nil, r) && CreateRun(b, s1, s2, err, r') && Again(a, b) && Steady(a, ports)
    requires OneRoute(a, ports) && SameContent(a, ports) && HttpSettled(a, s, r.inp.ip) && HttpsSettled(a, s, r.inp.ip)
    ensures err == Nil
  {
    hide FullRun, SameContent, B.ServiceMap, H.Probeable, NodePorts, GroupsOf, HttpSettled, HttpsSettled, SameOrder,
         OneRoute;
    ReachesTheEnd(a, b, s, s1, s1, s2, ports, err, r, r');
    BackAgain(a, b, s, s1, s2, ports, err, r, r');
    OneRouteMeansSameOrder(a, b, s, s1, s2, ports, err, r, r');
    CreateIsIdempotent(a, b, s, s1, s2, ports, err, r, r');
  }

  /** What the first run left behind tells what every second run returns. */
  ghost predicate AlwaysNil(b: Args, s: C.Store) {
    forall s', err, r :: CreateRun(b, s, s', err, r) ==> err == Nil
  }

  lemma NilNeedsOneRoute(a: Args, b: Args, s: C.Store, s1: C.Store, ports: seq<ServicePort>, r: Run)
    requires CreateRun(a, s, s1, Nil, r) && Again(a, b) && Steady(a, ports) && AlwaysNil(b, s1)
    ensures OneRoute(a, ports) && SameContent(a, ports) && HttpSettled(a, s, r.inp.ip) && HttpsSettled(a, s, r.inp.ip)
  {
    hide FullRun, SameContent, B.ServiceMap, H.Probeable, NodePorts, GroupsOf, HttpSettled, HttpsSettled, U.Wanted,
         AllNamesStored, Namer.Name,
         Tr.SingleRoute, Tr.HostTable;
    SuccessStoresAllNames(a, s, s1, r);
    UrlMapPartOf(a, s, s1, ports, r);
    StoredIsWanted(a, b, s, s1, r);
    var stored := s1.urlMaps[a.Namer().Name(UrlMap)].spec;
    var err, r' := RepeatRun(a, b, s, s1, r, stored);
    CreateIsIdempotent(a, b, s, s1, s1, ports, err, r, r');
    if !OneRoute(a, ports) {
      var other := OtherWanted(UmJob(b, r.inp, r.be.services), stored);
      err, r' := RepeatRun(a, b, s, s1, r, other);
      CreateIsIdempotent(a, b, s, s1, s1, ports, err, r, r');
    }
  }

  lemma UrlMapPartOf(a: Args, s: C.Store, s1: C.Store, ports: seq<ServicePort>, r: Run)
    requires FullRun(a, s, s1, Nil, r) && Steady(a, ports)
    ensures UrlMapStage(a, s.urlMaps, s1.urlMaps, r.inp, r.be, r.um) && r.um.err == Nil
    ensures r.be.services == B.ServiceMap(a.Namer(), ports)
  {
    hide HealthStage, GroupStage, BackendStage, UrlMapStage, HttpStage, HttpsStage, FirewallStage, NodePorts, AddressOf,
         H.Probeable, GroupsOf,
         B.ServiceMap, B.OwnServices, Enumerates, FlatMapped, Namer.Name;
    BackendGroups(a, s.backendServices, s1.backendServices, r.inp, r.hc, r.ig, r.be);
  }

  /** After a successful create, the same create without force returns no error
      in every order if and only if there is at most one host with at most one
      path, service ports of one node port agree, and the first run, should it
      have been forced, found no difference that force does not repair. */
  lemma RepeatsAlwaysSucceed(a: Args, b: Args, s: C.Store, s1: C.Store, ports: seq<ServicePort>, r: Run)
    requires CreateRun(a, s, s1, Nil, r) && Again(a, b) && Steady(a, ports)
    ensures AlwaysNil(b, s1) <==>
            OneRoute(a, ports) && SameContent(a, ports) && HttpSettled(a, s, r.inp.ip) && HttpsSettled(a, s, r.inp.ip)
  {
    hide CreateRun, Steady, OneRoute, SameContent, HttpSettled, HttpsSettled;
    if AlwaysNil(b, s1) {
      NilNeedsOneRoute(a, b, s, s1, ports, r);
    } else if OneRoute(a, ports) && SameContent(a, ports) && HttpSettled(a, s, r.inp.ip) &&
        HttpsSettled(a, s, r.inp.ip) {
      var s2, err, r' :| CreateRun(b, s1, s2, err, r') && err != Nil;
      EnoughForNil(a, b, s, s1, s2, ports, err, r, r');
    }
  }
}
