/** What a successful create leaves behind: a complete chain of resources, with
    the contents that make it work. The records are described by their fields,
    not by the functions that compute them. */
module Chains {
  import opened Prelude
  import opened Names
  import opened Ingress
  import opened Sorting
  import opened Status
  import opened LoadBalancer
  import opened CreateRuns
  import Tr = Translation
  import P = ProbePaths
  import C = Cloud
  import H = HealthChecks
  import B = BackendServices
  import U = UrlMaps
  import T = TargetProxies
  import S = SslCerts
  import R = ForwardingRules
  import F = FirewallRules

  // ---------- Health checks and backend services ----------

  /** One request of a health check: to the port, on a path the clusters yield in
      some order, which is the one they agree on if no probe path is empty. */
  ghost predicate Requests(a: Args, check: C.HttpCheck, q: ServicePort) {
    var probes := (c: string) => a.w.probe(c, q);
    && check.port == q.nodePort && check.proxyHeader == "NONE"
    && (exists order :: Enumerates(order, a.clients) && P.PathInOrder(order, a.w.Probes(q)) == Some(check.requestPath))
    && (P.NoEmptyPath(a.clients, probes) ==> P.AgreedPath(a.clients, probes, check.requestPath))
  }

  /** A health check for a service port: requests of the kind its type says, and
      no other. */
  ghost predicate ChecksPort(a: Args, hc: C.HealthCheck, q: ServicePort) {
    && hc.checkType == q.protocol && hc.kind == "compute#healthCheck"
    && hc.checkIntervalSec == 60 && hc.timeoutSec == 60 && hc.healthyThreshold == 1 && hc.unhealthyThreshold == 10
    && hc.description ==
       "Health check for service " + q.Description() + " as part of kubernetes multicluster loadbalancer " + a.lbName
    && (|| (hc.checkType == "HTTP" && hc.https.None? && hc.http.Some? && Requests(a, hc.http.value, q))
        || (hc.checkType == "HTTPS" && hc.http.None? && hc.https.Some? && Requests(a, hc.https.value, q)))
  }

  /** The first group of one of the clusters has this name for the port. */
  ghost predicate NamedBy(a: Args, portName: string, p: Port) {
    exists c :: c in a.clients && a.w.groups(c).Some? && NamesPort(a.w.NamedPorts(a.w.groups(c).value[0]), portName, p)
  }

  predicate NamesPort(named: Option<map<Port, string>>, portName: string, p: Port) {
    named.Some? && p in named.value && named.value[p] == portName
  }

  /** A backend service for a service port, whatever its groups are. */
  ghost predicate ServesPort(a: Args, be: C.BackendService, q: ServicePort) {
    && be.port == q.nodePort && be.protocol == q.protocol && NamedBy(a, be.portName, q.nodePort)
    && be.healthChecks == [C.SelfLink(C.HealthChecks, a.Namer().Name(HealthCheck(q.nodePort)))]
    && be.description ==
       "Backend service for service " + q.Description() + " as part of kubernetes multicluster loadbalancer " + a.lbName
    && be.loadBalancingScheme == "EXTERNAL" && be.sessionAffinity == "NONE" && be.timeoutSec == 30
    && be.affinityCookieTtlSec == 0 && be.cdnPolicy.None? && be.connectionDraining == Some(0) && !be.enableCdn
  }

  ghost predicate CheckStored(a: Args, s: C.Store, ports: seq<ServicePort>, p: Port) {
    var name := a.Namer().Name(HealthCheck(p));
    name in s.healthChecks && exists i :: 0 <= i < |ports| && ports[i].nodePort == p &&
                                ChecksPort(a, s.healthChecks[name].spec, ports[i])
  }

  ghost predicate ServiceStored(a: Args, s: C.Store, ports: seq<ServicePort>, p: Port) {
    var name := a.Namer().Name(BackendService(p));
    name in s.backendServices && exists i :: 0 <= i < |ports| && ports[i].nodePort == p &&
                                   ServesPort(a, s.backendServices[name].spec, ports[i])
  }

  /** The backends are these groups, in this order. */
  predicate AreBackends(backends: seq<C.BackendRef>, groups: seq<string>) {
    && |backends| == |groups|
    && forall i :: 0 <= i < |groups| ==> backends[i] == C.BackendRef(groups[i], "RATE", 100000000000000.0, 1.0)
  }

  /** The groups of a cluster. */
  function GroupsIn(w: World): string -> seq<string> {
    c => if w.groups(c).Some? then w.groups(c).value else []
  }

  /** These backends are the groups of all clusters, sorted. */
  ghost predicate OverAllGroups(a: Args, backends: seq<C.BackendRef>) {
    exists order :: Enumerates(order, a.clients) && AreBackends(backends, Sort(FlatMapped(GroupsIn(a.w), order)))
  }

  /** The health check and backend service of a node port are stored, wired to
      each other and to the named port. */
  ghost predicate PortWired(a: Args, s: C.Store, ports: seq<ServicePort>, p: Port) {
    CheckStored(a, s, ports, p) && ServiceStored(a, s, ports, p)
  }

  /** ... and the service is over exactly the groups of all clusters. */
  ghost predicate PortServed(a: Args, s: C.Store, ports: seq<ServicePort>, p: Port) {
    var name := a.Namer().Name(BackendService(p));
    PortWired(a, s, ports, p) && name in s.backendServices && OverAllGroups(a, s.backendServices[name].spec.backends)
  }

  // ---------- The firewall rule ----------

  /** These are the node ports in decimal, sorted. */
  ghost predicate ListsNodePorts(strs: seq<string>, ports: seq<ServicePort>) {
    exists all: seq<string> ::
      && |all| == |ports|
      && (forall i :: 0 <= i < |ports| ==> all[i] == Decimal(ports[i].nodePort))
      && strs == Sort(all)
  }

  /** The network is that of an instance of one of the clusters. */
  ghost predicate NetworkOfSome(a: Args, network: string) {
    exists c :: c in a.clients && a.w.groups(c).Some? && HasNetwork(a.w.instance(a.w.groups(c).value[0]), network)
  }

  predicate HasNetwork(i: Option<Instance>, network: string) {
    i.Some? && network == if i.value.networks == [] then "" else i.value.networks[0]
  }

  /** A firewall rule that opens these ports; `before` is the rule that was there
      before, whose network is kept. */
  ghost predicate OpensPorts(a: Args, before: Option<C.Firewall>, fw: C.Firewall, ports: seq<ServicePort>) {
    && fw.sourceRanges == ["130.211.0.0/22", "35.191.0.0/16"] && fw.direction == "INGRESS"
    && |fw.allowed| == 1 && fw.allowed[0].ipProtocol == "tcp" && ListsNodePorts(fw.allowed[0].ports, ports)
    && fw.priority in {0, 1000}
    && fw.description == "Firewall rule for kubernetes multicluster loadbalancer " + a.lbName
    && (if before.Some? then fw.network == before.value.network else NetworkOfSome(a, fw.network))
  }

  /** `tags` are the first tags of the clusters' instances, sorted. */
  ghost predicate FirstTags(a: Args, tags: seq<string>) {
    exists order, firsts: seq<string> ::
      && Enumerates(order, a.clients) && |firsts| == |order|
      && (forall i :: 0 <= i < |order| ==>
            a.w.groups(order[i]).Some? && HasFirstTag(a.w.instance(a.w.groups(order[i]).value[0]), firsts[i]))
      && tags == Sort(firsts)
  }

  predicate HasFirstTag(i: Option<Instance>, tag: string) {
    i.Some? && i.value.tags != [] && i.value.tags[0] == tag
  }

  ghost function FirewallOf(a: Args, s: C.Store): Option<C.Firewall> {
    var name := a.Namer().Name(Firewall);
    if name in s.firewalls then Some(s.firewalls[name].spec) else None
  }

  ghost predicate FirewallWired(a: Args, s0: C.Store, s: C.Store, ports: seq<ServicePort>) {
    FirewallOf(a, s).Some? && OpensPorts(a, FirewallOf(a, s0), FirewallOf(a, s).value, ports)
  }

  // ---------- URL map, proxies, rules, certificate ----------

  /** The URL map is stored, and all it refers to are services of the ports. */
  ghost predicate UrlMapWired(a: Args, s: C.Store, ports: seq<ServicePort>) {
    var um := a.Namer().Name(UrlMap);
    && um in s.urlMaps
    && forall link :: C.RefersToService(s.urlMaps[um].spec, link) ==>
         exists i :: 0 <= i < |ports| &&
             link == C.SelfLink(C.BackendServices, a.Namer().Name(BackendService(ports[i].nodePort)))
  }

  /** What get-status and list will print. */
  function StatusText(a: Args, ip: string): string {
    a.codec.toStr(LoadBalancerStatus("URL map for kubernetes multicluster loadbalancer " + a.lbName, a.lbName,
                                     Sort(a.clusters), ip))
  }

  /** The rule carries target, address and port range. Its scheme is external,
      unless an older rule that differed in no more was force-updated. */
  ghost predicate RuleServed(s0: C.Store, s: C.Store, name: string, description: string, target: C.Link, ip: string,
                             portRange: string) {
    && name in s.forwardingRules
    && (var rule := s.forwardingRules[name].spec;
        && rule.description == description && rule.target == target && rule.ipAddress == ip &&
           rule.portRange == portRange
        && rule.ipProtocol == "TCP"
        && (|| rule.loadBalancingScheme == "EXTERNAL"
            || (name in s0.forwardingRules &&
                rule.loadBalancingScheme == s0.forwardingRules[name].spec.loadBalancingScheme)))
  }

  ghost predicate HttpServed(a: Args, s0: C.Store, s: C.Store, ip: string) {
    var n := a.Namer();
    var proxy := n.Name(HttpProxy);
    && proxy in s.httpProxies
    && s.httpProxies[proxy].spec.urlMap == C.SelfLink(C.UrlMaps, n.Name(UrlMap))
    && (proxy !in s0.httpProxies ==>
          s.httpProxies[proxy].spec.description ==
              "Target http proxy for kubernetes multicluster loadbalancer " + a.lbName)
    && RuleServed(s0, s, n.Name(HttpRule),
                  "http" + " forwarding rule for kubernetes multicluster loadbalancer " + a.lbName,
                  C.SelfLink(C.HttpProxies, proxy), ip, "80-80")
  }

  ghost predicate HttpsServed(a: Args, s0: C.Store, s: C.Store, ip: string) {
    var n := a.Namer();
    var proxy := n.Name(HttpsProxy);
    && proxy in s.httpsProxies
    && s.httpsProxies[proxy].spec.urlMap == C.SelfLink(C.UrlMaps, n.Name(UrlMap))
    && (proxy !in s0.httpsProxies ==>
          s.httpsProxies[proxy].spec.description ==
              "Target https proxy for kubernetes multicluster loadbalancer " + a.lbName)
    && RuleServed(s0, s, n.Name(HttpsRule),
                  "https" + " forwarding rule for kubernetes multicluster loadbalancer " + a.lbName,
                  C.SelfLink(C.HttpsProxies, proxy), ip, "443-443")
  }

  /** The certificate of the ingress is stored: the pre-shared one, or that of the
      secret of the cluster that was asked. One that this run wrote has the
      secret's key. */
  ghost predicate CertStored(a: Args, s0: C.Store, s: C.Store, client: string) {
    var name := a.Namer().Name(SslCert);
    if a.ing.preSharedCert != "" then a.ing.preSharedCert in s.sslCertificates
    else
      && name in s.sslCertificates && a.w.tlsSecret(client).Some?
      && (var secret, cert := a.w.tlsSecret(client).value, s.sslCertificates[name].spec;
          && cert.certificate == secret.cert
          && (name in s0.sslCertificates && s0.sslCertificates[name].spec.certificate == secret.cert ==>
                s.sslCertificates[name] == s0.sslCertificates[name])
          && (name !in s0.sslCertificates || s0.sslCertificates[name].spec.certificate != secret.cert ==>
                && cert.privateKey == secret.key
                && cert.description == "SSL cert for kubernetes multicluster loadbalancer " + a.lbName))
  }

  /** The HTTPS proxy names the certificate of the ingress, and no other. */
  ghost predicate CertServed(a: Args, s: C.Store) {
    var name := if a.ing.preSharedCert != "" then a.ing.preSharedCert else a.Namer().Name(SslCert);
    && name in s.sslCertificates
    && a.Namer().Name(HttpsProxy) in s.httpsProxies
    && s.httpsProxies[a.Namer().Name(HttpsProxy)].spec.sslCertificates == [C.SelfLink(C.SslCertificates, name)]
  }

  // ---------- The chain ----------

  /** The chain, without the lists of clusters: groups, tags and status. */
  ghost predicate Wired(a: Args, s0: C.Store, s: C.Store, inp: Inputs) {
    && (forall i :: 0 <= i < |inp.ports| ==> PortWired(a, s, inp.ports, inp.ports[i].nodePort))
    && UrlMapWired(a, s, inp.ports)
    && (a.ing.allowHttp ==> HttpServed(a, s0, s, inp.ip))
    && (a.ing.preSharedCert != "" || a.ing.hasTls ==> HttpsServed(a, s0, s, inp.ip) && CertStored(a, s0, s, inp.client))
    && FirewallWired(a, s0, s, inp.ports)
  }

  /** The chain a create of these inputs makes in store `s0`. */
  ghost predicate CompleteChain(a: Args, s0: C.Store, s: C.Store, inp: Inputs) {
    && Wired(a, s0, s, inp)
    && (forall i :: 0 <= i < |inp.ports| ==> PortServed(a, s, inp.ports, inp.ports[i].nodePort))
    && FirewallOf(a, s).Some? && FirstTags(a, FirewallOf(a, s).value.targetTags)
    && a.Namer().Name(UrlMap) in s.urlMaps &&
       s.urlMaps[a.Namer().Name(UrlMap)].spec.description == StatusText(a, inp.ip)
  }

  // ---------- Each stage makes its part ----------

  lemma WantedCheckProbes(a: Args, inp: Inputs, want: C.Want<C.HealthCheck>, q: ServicePort)
    requires H.WantFor(HcJob(a, inp), want, q)
    ensures ChecksPort(a, want.spec, q)
  {
    hide Namer.Name, Enumerates, P.PathInOrder, ServicePort.Description, P.NoEmptyPath, P.AgreedPath;
    var order :| Enumerates(order, a.clients) && P.PathInOrder(order, a.w.Probes(q)).Some?
      && H.Desired(a.lbName, q, P.PathInOrder(order, a.w.Probes(q)).value) == Some(want.spec);
    AgreedIfNotEmpty(a, q, order);
  }

  lemma AgreedIfNotEmpty(a: Args, q: ServicePort, order: seq<string>)
    requires Enumerates(order, a.clients) && P.PathInOrder(order, a.w.Probes(q)).Some?
    ensures var probes := (c: string) => a.w.probe(c, q);
            P.NoEmptyPath(a.clients, probes) ==>
                  P.AgreedPath(a.clients, probes, P.PathInOrder(order, a.w.Probes(q)).value)
  {
    var probes := (c: string) => a.w.probe(c, q);
    if P.NoEmptyPath(a.clients, probes) {
      P.PathLaw(order, a.clients, a.w.Probes(q));
    }
  }

  lemma HealthChain(a: Args, s: C.Store, s': C.Store, inp: Inputs, hc: HealthPart, i: nat)
    requires HealthStage(a, s.healthChecks, s'.healthChecks, inp, hc) && hc.err == Nil && i < |inp.ports|
    ensures CheckStored(a, s', inp.ports, inp.ports[i].nodePort)
  {
    hide Namer.Name, H.Probeable, H.Link, C.AllHold, C.Compatible, H.Desired, ChecksPort, Enumerates, P.PathInOrder,
         H.WantsAmong;
    var job := HcJob(a, inp);
    assert H.WantFor(job, hc.wants[i], inp.ports[i]);
    assert C.Settled(s'.healthChecks, hc.wants, hc.wants[i].name);
    var j :| 0 <= j < |hc.wants| && hc.wants[j].name == hc.wants[i].name && C.Holds(s'.healthChecks, hc.wants[j]);
    assert H.WantFor(job, hc.wants[j], inp.ports[j]);
    NameDeterminesRole(a.lbName, HealthCheck(inp.ports[i].nodePort), HealthCheck(inp.ports[j].nodePort));
    WantedCheckProbes(a, inp, hc.wants[j], inp.ports[j]);
  }

  lemma GroupKeys(a: Args, ig: GroupPart)
    requires GroupStage(a, ig) && ig.err == Nil
    ensures ig.igs == GroupsOf(a.w, a.clients) && ig.igs.Keys == a.clients
  {
  }

  lemma BackendChain(a: Args, t: C.Table<C.BackendService>, t': C.Table<C.BackendService>, inp: Inputs,
                     hc: HealthPart, ig: GroupPart, be: BackendPart, i: nat) returns (j: nat)
    requires BackendStage(a, t, t', inp, hc, ig, be) && be.err == Nil && i < |inp.ports|
    ensures j < |inp.ports| && j < |be.wants| && inp.ports[j].nodePort == inp.ports[i].nodePort
    ensures C.Holds(t', be.wants[j])
    ensures B.WantFor(BeJob(a, inp, hc, ig, be.groups), be.wants[j], inp.ports[j])
  {
    hide Namer.Name, FlatMapped, Enumerates, B.ServiceMap, B.Supplied, B.OwnServices, B.Desired, GroupFn;
    var job := BeJob(a, inp, hc, ig, be.groups);
    assert B.WantFor(job, be.wants[i], inp.ports[i]);
    assert C.Settled(t', be.wants, be.wants[i].name);
    j :| 0 <= j < |be.wants| && be.wants[j].name == be.wants[i].name && C.Holds(t', be.wants[j]);
    assert B.WantFor(job, be.wants[j], inp.ports[j]);
    NameDeterminesRole(a.lbName, BackendService(inp.ports[i].nodePort), BackendService(inp.ports[j].nodePort));
  }

  lemma NamedByOne(a: Args, ig: GroupPart, p: Port)
    requires GroupStage(a, ig) && p in ig.namedPorts
    ensures NamedBy(a, ig.namedPorts[p], p)
  {
    hide World.NamedPorts;
    var c :| c in ig.igs && a.w.NamedPorts(ig.igs[c][0]) == Some(ig.namedPorts);
    assert c in a.clients && a.w.groups(c) == Some(ig.igs[c]);
    assert NamesPort(a.w.NamedPorts(a.w.groups(c).value[0]), ig.namedPorts[p], p);
  }

  lemma RefsAreBackends(groups: seq<string>)
    ensures AreBackends(B.Refs(groups), groups)
  {
  }

  lemma WantedServiceServes(a: Args, job: B.Job, ig: GroupPart, want: C.Want<C.BackendService>, q: ServicePort)
    requires B.WantFor(job, want, q) && GroupStage(a, ig)
    requires job.namer == a.Namer() && job.lbName == a.lbName && job.namedPorts == ig.namedPorts
    requires job.hcs[q.nodePort] == C.SelfLink(C.HealthChecks, a.Namer().Name(HealthCheck(q.nodePort)))
    ensures ServesPort(a, want.spec, q) && AreBackends(want.spec.backends, Sort(job.groups))
  {
    hide GroupStage, Namer.Name, ServicePort.Description, NamedBy, Sort, AreBackends;
    NamedByOne(a, ig, q.nodePort);
    RefsAreBackends(Sort(job.groups));
  }

  lemma SameFlatGroups(w: World, clients: set<string>, order: seq<string>)
    ensures (forall c :: c in order ==> c in clients) ==>
              FlatMapped(GroupFn(GroupsOf(w, clients)), order) == FlatMapped(GroupsIn(w), order)
  {
    if forall c :: c in order ==> c in clients {
      FlatMappedSame(GroupFn(GroupsOf(w, clients)), GroupsIn(w), order);
    }
  }

  lemma ServiceChain(a: Args, s: C.Store, s': C.Store, r: Run, i: nat)
    requires HealthStage(a, s.healthChecks, s'.healthChecks, r.inp, r.hc)
    requires GroupStage(a, r.ig) && r.ig.err == Nil
    requires BackendStage(a, s.backendServices, s'.backendServices, r.inp, r.hc, r.ig, r.be) && r.be.err == Nil
    requires i < |r.inp.ports|
    ensures var p := r.inp.ports[i].nodePort;
            var name := a.Namer().Name(BackendService(p));
            && ServiceStored(a, s', r.inp.ports, p) && name in s'.backendServices
            && OverAllGroups(a, s'.backendServices[name].spec.backends)
  {
    hide HealthStage, GroupStage, BackendStage, Namer.Name, FlatMapped, Enumerates, Sort, AreBackends, GroupFn,
         GroupsOf,
         ServesPort, B.Desired, GroupsIn;
    var j := BackendChain(a, s.backendServices, s'.backendServices, r.inp, r.hc, r.ig, r.be, i);
    GroupKeys(a, r.ig);
    HealthLinks(a, s.healthChecks, s'.healthChecks, r.inp, r.hc);
    BackendGroups(a, s.backendServices, s'.backendServices, r.inp, r.hc, r.ig, r.be);
    WantedServiceServes(a, BeJob(a, r.inp, r.hc, r.ig, r.be.groups), r.ig, r.be.wants[j], r.inp.ports[j]);
    assert r.be.wants[j].name == a.Namer().Name(BackendService(r.inp.ports[i].nodePort));
    OrderAmong(r.be.order, a.clients);
    SameFlatGroups(a.w, a.clients, r.be.order);
  }

  lemma OrderAmong(order: seq<string>, clients: set<string>)
    requires Enumerates(order, clients)
    ensures forall c :: c in order ==> c in clients
  {
  }

  lemma PortChain(a: Args, s: C.Store, s': C.Store, r: Run, i: nat)
    requires HealthStage(a, s.healthChecks, s'.healthChecks, r.inp, r.hc) && r.hc.err == Nil
    requires GroupStage(a, r.ig) && r.ig.err == Nil
    requires BackendStage(a, s.backendServices, s'.backendServices, r.inp, r.hc, r.ig, r.be) && r.be.err == Nil
    requires i < |r.inp.ports|
    ensures PortServed(a, s', r.inp.ports, r.inp.ports[i].nodePort)
  {
    hide HealthStage, GroupStage, BackendStage, Namer.Name, CheckStored, ServiceStored, OverAllGroups;
    HealthChain(a, s, s', r.inp, r.hc, i);
    ServiceChain(a, s, s', r, i);
  }

  lemma HealthLinks(a: Args, t: C.Table<C.HealthCheck>, t': C.Table<C.HealthCheck>, inp: Inputs, hc: HealthPart)
    requires HealthStage(a, t, t', inp, hc)
    ensures forall n :: n in hc.hcs ==> hc.hcs[n] == C.SelfLink(C.HealthChecks, a.Namer().Name(HealthCheck(n)))
  {
    hide Namer.Name, H.WantFor, H.Probeable, C.ReconciledAll;
  }

  lemma BackendGroups(a: Args, t: C.Table<C.BackendService>, t': C.Table<C.BackendService>, inp: Inputs,
                      hc: HealthPart, ig: GroupPart, be: BackendPart)
    requires BackendStage(a, t, t', inp, hc, ig, be)
    ensures Enumerates(be.order, ig.igs.Keys) && be.groups == FlatMapped(GroupFn(ig.igs), be.order)
    ensures B.OwnServices(BeJob(a, inp, hc, ig, be.groups), be.services)
    ensures be.err == Nil ==> be.services == B.ServiceMap(a.Namer(), inp.ports)
  {
    hide B.WantFor, B.Supplied, C.ReconciledAll, Enumerates, FlatMapped, Namer.Name;
    assert inp.ports[..|inp.ports|] == inp.ports;
  }

  lemma UrlMapChain(a: Args, s: C.Store, s': C.Store, r: Run)
    requires BackendStage(a, s.backendServices, s'.backendServices, r.inp, r.hc, r.ig, r.be)
    requires UrlMapStage(a, s.urlMaps, s'.urlMaps, r.inp, r.be, r.um) && r.um.err == Nil
    ensures UrlMapWired(a, s', r.inp.ports)
    ensures a.Namer().Name(UrlMap) in s'.urlMaps
    ensures s'.urlMaps[a.Namer().Name(UrlMap)].spec.description == StatusText(a, r.inp.ip)
    ensures r.um.link == U.Link(a.Namer())
  {
    BackendGroups(a, s.backendServices, s'.backendServices, r.inp, r.hc, r.ig, r.be);
    hide BackendStage, Namer.Name, FlatMapped, Enumerates, B.ServiceMap, Tr.Translates, C.RefersToService,
         U.Translatable, B.Link;
    var um := r.um.want.value;
    forall link | C.RefersToService(um, link)
      ensures exists i :: 0 <= i < |r.inp.ports| && link == B.Link(a.Namer(), r.inp.ports[i].nodePort)
    {
      TranslationRefersToServices(um, a.ing, r.be.services, a.hash, link);
      var n :| n in r.be.services && r.be.services[n] == link;
      var j :| 0 <= j < |r.inp.ports| && r.inp.ports[j].svcName == n &&
          r.be.services[n] == B.Link(a.Namer(), r.inp.ports[j].nodePort);
    }
  }

  lemma RuleChain(t: C.Table<C.ForwardingRule>, t': C.Table<C.ForwardingRule>, name: string, want: C.ForwardingRule,
                  force: bool, reliable: bool)
    requires R.Outcome(t, t', name, want, force, Nil, reliable)
    ensures name in t'
    ensures var rule := t'[name].spec;
            && rule.description == want.description && rule.target == want.target && rule.ipAddress == want.ipAddress
            && rule.portRange == want.portRange && rule.ipProtocol == want.ipProtocol
            && (|| rule.loadBalancingScheme == want.loadBalancingScheme
                || (name in t && rule.loadBalancingScheme == t[name].spec.loadBalancingScheme))
  {
  }

  lemma HttpChain(a: Args, s: C.Store, s': C.Store, r: Run)
    requires HttpStage(a, s.httpProxies, s'.httpProxies, s.forwardingRules, r.inp, r.um, r.http)
    requires a.ing.allowHttp && r.http.proxyErr == Nil && r.http.ruleErr == Nil && r.um.link == U.Link(a.Namer())
    requires Kept(r.http.rules, s'.forwardingRules, a.Namer().Name(HttpRule)) ||
             a.Namer().Name(HttpRule) !in r.http.rules
    ensures HttpServed(a, s, s', r.inp.ip)
  {
    hide Namer.Name, R.Outcome;
    RuleChain(s.forwardingRules, r.http.rules, a.Namer().Name(HttpRule),
              R.DesiredHttp(a.lbName, r.inp.ip, HttpTarget(a, r.http)), a.force, a.reliable);
  }

  lemma CertChain(a: Args, s: C.Store, s': C.Store, r: Run)
    requires CertStage(a, s.sslCertificates, s'.sslCertificates, s.httpsProxies, r.inp, r.https)
    requires r.https.certErr == Nil
    ensures CertStored(a, s, s', r.inp.client)
  {
    hide Namer.Name, C.SslCertificateInUse;
  }

  lemma HttpsChain(a: Args, s: C.Store, s': C.Store, r: Run)
    requires HttpsStage(a, s.sslCertificates, s'.sslCertificates, s.httpsProxies, s'.httpsProxies, s'.forwardingRules,
                        r.inp, r.um, r.http, r.https)
    requires a.WantsHttps() && r.https.certErr == Nil && r.https.proxyErr == Nil && r.https.ruleErr == Nil
    requires r.um.link == U.Link(a.Namer()) && SameAt(s.forwardingRules, r.http.rules, a.Namer().Name(HttpsRule))
    ensures HttpsServed(a, s, s', r.inp.ip) && CertStored(a, s, s', r.inp.client)
    ensures a.Namer().Name(HttpsProxy) !in s.httpsProxies || !a.force ==> CertServed(a, s')
  {
    hide Namer.Name, R.Outcome, CertStage, CertStored;
    CertChain(a, s, s', r);
    CertLinks(a, s, s', r);
    RuleChain(r.http.rules, s'.forwardingRules, a.Namer().Name(HttpsRule),
              R.DesiredHttps(a.lbName, r.inp.ip, HttpsTarget(a, r.https)), a.force, a.reliable);
  }

  lemma CertLinks(a: Args, s: C.Store, s': C.Store, r: Run)
    requires CertStage(a, s.sslCertificates, s'.sslCertificates, s.httpsProxies, r.inp, r.https)
    requires r.https.certErr == Nil
    ensures var name := if a.ing.preSharedCert != "" then a.ing.preSharedCert else a.Namer().Name(SslCert);
            name in s'.sslCertificates && r.https.certLink == C.SelfLink(C.SslCertificates, name)
  {
    hide Namer.Name, C.SslCertificateInUse;
  }

  lemma HttpRuleKept(a: Args, s: C.Store, s': C.Store, r: Run)
    requires HttpsStage(a, s.sslCertificates, s'.sslCertificates, s.httpsProxies, s'.httpsProxies, s'.forwardingRules,
                        r.inp, r.um, r.http, r.https)
    ensures Kept(r.http.rules, s'.forwardingRules, a.Namer().Name(HttpRule)) ||
            a.Namer().Name(HttpRule) !in r.http.rules
  {
    var n := a.Namer();
    TwoRuleNames(a.lbName);
    hide Namer.Name, CertStage, T.Outcome, R.DesiredHttps;
    if a.WantsHttps() {
      RuleWrites(r.http.rules, s'.forwardingRules, n.Name(HttpsRule),
                 R.DesiredHttps(a.lbName, r.inp.ip, HttpsTarget(a, r.https)),
                 a.force, r.https.ruleErr, a.reliable);
    }
  }

  /** The HTTP part leaves the HTTPS rule alone. */
  lemma HttpsRuleSame(a: Args, s: C.Store, s1: C.Store, r: Run)
    requires HttpStage(a, s.httpProxies, s1.httpProxies, s.forwardingRules, r.inp, r.um, r.http)
    ensures SameAt(s.forwardingRules, r.http.rules, a.Namer().Name(HttpsRule))
  {
    var n := a.Namer();
    TwoRuleNames(a.lbName);
    hide Namer.Name, T.Outcome, R.DesiredHttp, R.Outcome;
    if a.ing.allowHttp {
      RuleWrites(s.forwardingRules, r.http.rules, n.Name(HttpRule),
                 R.DesiredHttp(a.lbName, r.inp.ip, HttpTarget(a, r.http)),
                 a.force, r.http.ruleErr, a.reliable);
    }
  }

  lemma TagsAreFirst(a: Args, igs: map<string, Groups>, order: seq<string>)
    requires igs == GroupsOf(a.w, a.clients) && igs.Keys == a.clients && Enumerates(order, a.clients)
    requires F.TagsKnown(a.w, igs)
    ensures FirstTags(a, Sort(Mapped(F.TagOf(a.w, igs), order)))
  {
    hide Sort;
    var firsts := Mapped(F.TagOf(a.w, igs), order);
    forall i | 0 <= i < |order|
      ensures a.w.groups(order[i]).Some? && HasFirstTag(a.w.instance(a.w.groups(order[i]).value[0]), firsts[i])
    {
      assert order[i] in order;
      assert order[i] in igs && F.FirstTag(a.w, igs[order[i]]).Some?;
    }
  }

  lemma PortsAreListed(ports: seq<ServicePort>)
    ensures ListsNodePorts(Sort(F.PortStrings(ports)), ports)
  {
    hide Sort, Decimal;
  }

  lemma NetworkIsOfSome(a: Args, inp: Inputs, ig: GroupPart, network: string)
    requires F.OnNetwork(FwJob(a, inp, ig), network) && ig.igs == GroupsOf(a.w, a.clients)
    ensures NetworkOfSome(a, network)
  {
    var c :| c in ig.igs && a.w.instance(ig.igs[c][0]).Some? &&
        network == F.NetworkOf(a.w.instance(ig.igs[c][0]).value);
    assert HasNetwork(a.w.instance(a.w.groups(c).value[0]), network);
  }

  lemma FirewallChain(a: Args, s: C.Store, s': C.Store, r: Run)
    requires FirewallStage(a, s.firewalls, s'.firewalls, r.inp, r.ig, r.fw) && r.fw.err == Nil
    requires r.ig.igs == GroupsOf(a.w, a.clients) && r.ig.igs.Keys == a.clients
    ensures FirewallWired(a, s, s', r.inp.ports) && FirstTags(a, FirewallOf(a, s').value.targetTags)
  {
    hide Namer.Name, Enumerates, Sort, GroupsOf, F.PortStrings, F.TagsKnown, Mapped, F.TagOf, F.OnNetwork,
         NetworkOfSome,
         ListsNodePorts, FirstTags;
    var want := r.fw.want.value;
    var order :| Enumerates(order, r.ig.igs.Keys) &&
      want == F.Desired(a.lbName, r.inp.ports, Mapped(F.TagOf(a.w, r.ig.igs), order), want.network);
    PortsAreListed(r.inp.ports);
    TagsAreFirst(a, r.ig.igs, order);
    NetworkIsOfSome(a, r.inp, r.ig, want.network);
  }

  /** From any store, forced or not: if create returns no error, every port has
      its health check, on the path the clusters agree on, and its backend service
      on the named port and over exactly the groups of all clusters; the URL map
      refers only to those services and carries the status; the proxies point to
      the URL map; the rules point to the proxies and carry the reserved address;
      the certificate is that of the ingress; and the firewall rule opens those
      ports on all clusters. The certificate link too is right, unless an existing
      proxy was force-updated, for that update sets only the URL map. */
  lemma SuccessfulCreateIsComplete(a: Args, s: C.Store, s': C.Store, r: Run)
    requires CreateRun(a, s, s', Nil, r)
    ensures CompleteChain(a, s, s', r.inp)
    ensures r.inp.client in a.clients && r.inp.ports == NodePorts(a.w, r.inp.client, a.ing)
    ensures a.ing.staticIpName != "" && a.w.address(a.ing.staticIpName) == Some(r.inp.ip)
    ensures a.WantsHttps() && (a.Namer().Name(HttpsProxy) !in s.httpsProxies || !a.force) ==> CertServed(a, s')
  {
    hide HealthStage, GroupStage, BackendStage, UrlMapStage, HttpStage, HttpsStage, FirewallStage, PortServed,
         PortWired,
         UrlMapWired, HttpServed, HttpsServed, CertServed, CertStored, OpensPorts, FirstTags, StatusText, NodePorts,
         U.Link, Namer.Name, GroupsOf, SameAt;
    GroupKeys(a, r.ig);
    FirewallChain(a, s, s', r);
    forall i | 0 <= i < |r.inp.ports|
      ensures PortServed(a, s', r.inp.ports, r.inp.ports[i].nodePort)
      ensures PortWired(a, s', r.inp.ports, r.inp.ports[i].nodePort)
    {
      PortChain(a, s, s', r, i);
      ServedIsWired(a, s', r.inp.ports, r.inp.ports[i].nodePort);
    }
    UrlMapChain(a, s, s', r);
    HttpRuleKept(a, s, s', r);
    if a.ing.allowHttp {
      HttpChain(a, s, s', r);
    }
    if a.WantsHttps() {
      HttpsRuleSame(a, s, s', r);
      HttpsChain(a, s, s', r);
    }
  }

  lemma ChainServes(a: Args, s0: C.Store, s: C.Store, inp: Inputs, p: ServicePort)
    requires CompleteChain(a, s0, s, inp) && p in inp.ports
    ensures PortServed(a, s, inp.ports, p.nodePort)
  {
    hide Wired, PortServed, FirstTags, StatusText, Namer.Name;
    var i :| 0 <= i < |inp.ports| && inp.ports[i] == p;
  }

  lemma ServedIsWired(a: Args, s: C.Store, ports: seq<ServicePort>, p: Port)
    requires PortServed(a, s, ports, p)
    ensures PortWired(a, s, ports, p)
  {
    hide PortWired, OverAllGroups, Namer.Name;
  }

  // ---------- What is not asked for ----------

  /** Without a reserved address nothing is created. */
  lemma NoAddressNoCreate(a: Args, s: C.Store, s': C.Store, err: Err, r: Run)
    requires CreateRun(a, s, s', err, r)
    requires a.ing.staticIpName == "" || a.w.address(a.ing.staticIpName).None?
    ensures err != Nil && s' == s
  {
    hide HealthStage, GroupStage, BackendStage, UrlMapStage, HttpStage, HttpsStage, FirewallStage, NodePorts;
  }

  /** An ingress that forbids HTTP, or asks for no TLS, has that part untouched. */
  lemma OnlyWhatIsAsked(a: Args, s: C.Store, s': C.Store, err: Err, r: Run)
    requires CreateRun(a, s, s', err, r)
    ensures !a.ing.allowHttp ==>
              s'.httpProxies == s.httpProxies && SameAt(s.forwardingRules, s'.forwardingRules, a.Namer().Name(HttpRule))
    ensures a.ing.preSharedCert == "" && !a.ing.hasTls ==>
              && s'.httpsProxies == s.httpsProxies && s'.sslCertificates == s.sslCertificates
              && SameAt(s.forwardingRules, s'.forwardingRules, a.Namer().Name(HttpsRule))
    ensures a.ing.preSharedCert != "" ==> s'.sslCertificates == s.sslCertificates
  {
    hide HealthStage, GroupStage, BackendStage, UrlMapStage, HttpStage, HttpsStage, FirewallStage, InputStage,
         AddressOf, Namer.Name;
    if FullRun(a, s, s', err, r) {
      HttpsRuleSame(a, s, s', r);
      HttpRuleAfter(a, s, s', r);
      StagesNotAsked(a, s, s', r);
    }
  }

  lemma HttpRuleAfter(a: Args, s: C.Store, s': C.Store, r: Run)
    requires HttpsStage(a, s.sslCertificates, s'.sslCertificates, s.httpsProxies, s'.httpsProxies, s'.forwardingRules,
                        r.inp, r.um, r.http, r.https)
    ensures SameAt(r.http.rules, s'.forwardingRules, a.Namer().Name(HttpRule))
  {
    var n := a.Namer();
    TwoRuleNames(a.lbName);
    hide Namer.Name, CertStage, T.Outcome, R.DesiredHttps, R.Outcome;
    if a.WantsHttps() {
      RuleWrites(r.http.rules, s'.forwardingRules, n.Name(HttpsRule),
                 R.DesiredHttps(a.lbName, r.inp.ip, HttpsTarget(a, r.https)),
                 a.force, r.https.ruleErr, a.reliable);
    }
  }

  lemma StagesNotAsked(a: Args, s: C.Store, s': C.Store, r: Run)
    requires HttpStage(a, s.httpProxies, s'.httpProxies, s.forwardingRules, r.inp, r.um, r.http)
    requires HttpsStage(a, s.sslCertificates, s'.sslCertificates, s.httpsProxies, s'.httpsProxies, s'.forwardingRules,
                        r.inp, r.um, r.http, r.https)
    ensures !a.ing.allowHttp ==> s'.httpProxies == s.httpProxies && r.http.rules == s.forwardingRules
    ensures a.ing.preSharedCert == "" && !a.ing.hasTls ==>
              s'.httpsProxies == s.httpsProxies && s'.sslCertificates == s.sslCertificates &&
                  s'.forwardingRules == r.http.rules
    ensures a.ing.preSharedCert != "" ==> s'.sslCertificates == s.sslCertificates
  {
    hide Namer.Name, T.Outcome, R.Outcome, S.Outcome, C.SslCertificateInUse;
  }
}
