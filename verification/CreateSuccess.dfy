/** When a create succeeds. */
module CreateSuccess {
  import opened Prelude
  import opened Names
  import opened Ingress
  import opened Sorting
  import opened LoadBalancer
  import opened CreateRuns
  import opened Chains
  import opened Idempotence
  import Tr = Translation
  import C = Cloud
  import H = HealthChecks
  import P = ProbePaths
  import B = BackendServices
  import U = UrlMaps
  import T = TargetProxies
  import R = ForwardingRules
  import F = FirewallRules

  // ---------- What can stand in the way ----------

  /** Every answer a create needs is there. */
  ghost predicate Complete(a: Args, s: C.Store, ports: seq<ServicePort>) {
    && a.clients != {} && AddressOf(a.w, a.ing).Some? && a.ing.backend.Some?
    && (forall c, be :: c in a.clients && be in MentionedBackends(a.ing) ==>
          a.w.ServicePortOf(c, a.ing.namespace, be).Some?)
    && (forall c :: c in a.clients ==> GroupsReady(a.w, c, ports))
    && (a.ing.preSharedCert != "" ==> a.ing.preSharedCert in s.sslCertificates)
    && (a.ing.preSharedCert == "" && a.ing.hasTls ==> forall c :: c in a.clients ==> a.w.tlsSecret(c).Some?)
  }

  /** The cluster has groups whose first one names all ports and has an instance
      with a tag. */
  ghost predicate GroupsReady(w: World, c: string, ports: seq<ServicePort>) {
    w.groups(c).Some? && ReadyGroup(w, w.groups(c).value, ports)
  }

  ghost predicate ReadyGroup(w: World, groups: Groups, ports: seq<ServicePort>) {
    && F.FirstTag(w, groups).Some?
    && (var named := w.NamedPorts(groups[0]);
        named.Some? && named.value != map[] && forall i :: 0 <= i < |ports| ==> ports[i].nodePort in named.value)
  }

  /** A certificate that differs from the secret's is not protected by its use. */
  ghost predicate CertFree(a: Args, s: C.Store) {
    var name := a.Namer().Name(SslCert);
    a.WantsHttps() && a.ing.preSharedCert == "" && name in s.sslCertificates ==>
      (a.strict && C.SslCertificateInUse(s.httpsProxies, name) ==> CertMatches(a, s))
  }

  /** The clusters hold the certificate that is stored. */
  ghost predicate CertMatches(a: Args, s: C.Store) {
    var name := a.Namer().Name(SslCert);
    name in s.sslCertificates ==>
      forall c :: c in a.clients && a.w.tlsSecret(c).Some? ==>
            a.w.tlsSecret(c).value.cert == s.sslCertificates[name].spec.certificate
  }

  /** A health check stored for this port is one that is wanted. */
  ghost predicate CheckFits(a: Args, t: C.Table<C.HealthCheck>, ports: seq<ServicePort>, p: ServicePort) {
    var name := a.Namer().Name(HealthCheck(p.nodePort));
    name in t ==>
          H.WantFor(H.Job(a.Namer(), a.lbName, ports, a.w, a.clients, a.force, a.reliable), C.Want(name, t[name].spec),
                    p)
  }

  /** A backend service stored for this port is the one that is wanted. */
  ghost predicate ServiceFits(a: Args, t: C.Table<C.BackendService>, p: ServicePort) {
    var name := a.Namer().Name(BackendService(p.nodePort));
    name in t ==> exists c, order :: IsWantedService(a, t[name].spec, p, c, order)
  }

  ghost predicate IsWantedService(a: Args, be: C.BackendService, p: ServicePort, c: string, order: seq<string>) {
    var igs := GroupsOf(a.w, a.clients);
    && c in igs && Enumerates(order, a.clients)
    && (var named := a.w.NamedPorts(igs[c][0]);
        && named.Some? && p.nodePort in named.value
        && be ==
           B.Desired(a.lbName, p, H.Link(a.Namer(), p.nodePort), named.value[p.nodePort],
                     FlatMapped(GroupFn(igs), order)))
  }

  /** A stored firewall rule matches the one that is wanted. */
  ghost predicate FirewallFits(a: Args, t: C.Table<C.Firewall>, ports: seq<ServicePort>) {
    var name, igs := a.Namer().Name(Firewall), GroupsOf(a.w, a.clients);
    name in t ==> exists order ::
      && Enumerates(order, a.clients)
      && F.Matches(F.Desired(a.lbName, ports, Mapped(F.TagOf(a.w, igs), order), ""), t[name].spec)
  }

  predicate HttpFits(a: Args, s: C.Store, ip: string) {
    var n := a.Namer();
    a.ing.allowHttp ==>
      && (n.Name(HttpProxy) in s.httpProxies ==>
            s.httpProxies[n.Name(HttpProxy)].spec == T.DesiredHttp(a.lbName, U.Link(n)))
      && (n.Name(HttpRule) in s.forwardingRules ==>
            s.forwardingRules[n.Name(HttpRule)].spec == R.DesiredHttp(a.lbName, ip, T.HttpLink(n)))
  }

  ghost predicate HttpsFits(a: Args, s: C.Store, ip: string) {
    var n := a.Namer();
    a.WantsHttps() ==>
      && (a.ing.preSharedCert == "" ==> CertMatches(a, s))
      && (n.Name(HttpsProxy) in s.httpsProxies ==>
            s.httpsProxies[n.Name(HttpsProxy)].spec == T.DesiredHttps(a.lbName, U.Link(n), CertLink(a)))
      && (n.Name(HttpsRule) in s.forwardingRules ==>
            s.forwardingRules[n.Name(HttpsRule)].spec == R.DesiredHttps(a.lbName, ip, T.HttpsLink(n)))
  }

  ghost predicate PortsFit(a: Args, s: C.Store, ports: seq<ServicePort>) {
    && SameContent(a, ports)
    && (forall i :: 0 <= i < |ports| ==> CheckFits(a, s.healthChecks, ports, ports[i]))
    && (forall i :: 0 <= i < |ports| ==> ServiceFits(a, s.backendServices, ports[i]))
  }

  /** Every name that is taken holds what is wanted. */
  ghost predicate NothingInTheWay(a: Args, s: C.Store, ports: seq<ServicePort>, ip: string) {
    && PortsFit(a, s, ports)
    && HttpFits(a, s, ip) && HttpsFits(a, s, ip) && FirewallFits(a, s.firewalls, ports)
  }

  // ---------- Health checks ----------

  lemma ChecksUnique(a: Args, inp: Inputs, wants: seq<C.Want<C.HealthCheck>>)
    requires SameContent(a, inp.ports) && |wants| == |inp.ports|
    requires forall i :: 0 <= i < |inp.ports| ==> H.Probeable(a.w, a.clients, inp.ports[i])
    requires forall i :: 0 <= i < |inp.ports| ==> H.WantFor(HcJob(a, inp), wants[i], inp.ports[i])
    ensures forall i, j :: 0 <= i < |wants| && 0 <= j < |wants| && wants[i].name == wants[j].name ==>
              wants[i] == wants[j]
  {
    hide Namer.Name, H.Probeable, H.Desired, H.SameWants, Enumerates, P.PathInOrder;
    var job := HcJob(a, inp);
    forall i, j | 0 <= i < |wants| && 0 <= j < |wants| && wants[i].name == wants[j].name ensures wants[i] == wants[j] {
      assert H.WantFor(job, wants[i], inp.ports[i]) && H.WantFor(job, wants[j], inp.ports[j]);
      NameDeterminesRole(a.lbName, HealthCheck(inp.ports[i].nodePort), HealthCheck(inp.ports[j].nodePort));
      H.WantCarries(job, wants[j], inp.ports[j], inp.ports[i]);
      H.WantUnique(job, wants[i], wants[j], inp.ports[i]);
    }
  }

  lemma ChecksCompatible(a: Args, t: C.Table<C.HealthCheck>, inp: Inputs, wants: seq<C.Want<C.HealthCheck>>)
    requires SameContent(a, inp.ports) && |wants| == |inp.ports|
    requires forall i :: 0 <= i < |inp.ports| ==> H.Probeable(a.w, a.clients, inp.ports[i])
    requires forall i :: 0 <= i < |inp.ports| ==> H.WantFor(HcJob(a, inp), wants[i], inp.ports[i])
    requires forall i :: 0 <= i < |inp.ports| ==> CheckFits(a, t, inp.ports, inp.ports[i])
    ensures C.Compatible(t, wants)
  {
    ChecksUnique(a, inp, wants);
    hide Namer.Name, H.Probeable, H.Desired, H.SameWants, Enumerates, P.PathInOrder, SameContent;
    forall i | 0 <= i < |wants| && wants[i].name in t ensures C.Holds(t, wants[i]) {
      assert H.WantFor(HcJob(a, inp), wants[i], inp.ports[i]) && CheckFits(a, t, inp.ports, inp.ports[i]);
      H.WantUnique(HcJob(a, inp), wants[i], C.Want(wants[i].name, t[wants[i].name].spec), inp.ports[i]);
    }
  }

  /** Health checks succeed under force, and otherwise exactly if what is there
      fits. */
  lemma HealthExactly(a: Args, t: C.Table<C.HealthCheck>, t': C.Table<C.HealthCheck>, inp: Inputs, hc: HealthPart)
    requires HealthStage(a, t, t', inp, hc) && a.reliable
    requires forall i :: 0 <= i < |inp.ports| ==> H.Probeable(a.w, a.clients, inp.ports[i])
    ensures hc.err == Nil <==>
            a.force || (SameContent(a, inp.ports) && forall i :: 0 <= i < |inp.ports| ==>
                  CheckFits(a, t, inp.ports, inp.ports[i]))
    ensures hc.err == Nil ==> LinksAll(a, inp, hc)
  {
    hide Namer.Name, H.Probeable, H.WantFor, C.AllHold, C.Settled, C.Wanted, C.Compatible, SameContent, CheckFits,
         H.WantsAmong;
    ChecksListed(a, t, t', inp, hc);
    if !a.force && SameContent(a, inp.ports) && forall i :: 0 <= i < |inp.ports| ==>
          CheckFits(a, t, inp.ports, inp.ports[i]) {
      ChecksCompatible(a, t, inp, hc.wants);
    }
    if !a.force && hc.err == Nil {
      SuccessMeansSameContent(a, t, t', inp, hc);
      HealthWantsHold(a, t, t', inp, hc);
      ChecksFit(a, t, t', inp, hc);
    }
  }

  lemma ChecksFit(a: Args, t: C.Table<C.HealthCheck>, t': C.Table<C.HealthCheck>, inp: Inputs, hc: HealthPart)
    requires HealthStage(a, t, t', inp, hc) && !a.force && C.AllHold(t', hc.wants) && |hc.wants| == |inp.ports|
    requires forall i :: 0 <= i < |inp.ports| ==> H.WantFor(HcJob(a, inp), hc.wants[i], inp.ports[i])
    ensures forall i :: 0 <= i < |inp.ports| ==> CheckFits(a, t, inp.ports, inp.ports[i])
  {
    HealthMonotone(a, t, t', inp, hc);
    hide HealthStage, Namer.Name, H.Desired, Enumerates, P.PathInOrder;
    forall i | 0 <= i < |inp.ports| ensures CheckFits(a, t, inp.ports, inp.ports[i]) {
      assert C.Holds(t', hc.wants[i]) && H.WantFor(HcJob(a, inp), hc.wants[i], inp.ports[i]);
      var name := a.Namer().Name(HealthCheck(inp.ports[i].nodePort));
      if name in t {
        assert hc.wants[i] == C.Want(name, t[name].spec);
      }
    }
  }

  lemma GroupsComplete(a: Args, ports: seq<ServicePort>, ig: GroupPart)
    requires GroupStage(a, ig) && a.clients != {} && forall c :: c in a.clients ==> GroupsReady(a.w, c, ports)
    ensures ig.err == Nil && ig.igs != map[] && ig.namedPorts != map[] && F.TagsKnown(a.w, ig.igs)
    ensures forall i :: 0 <= i < |ports| ==> ports[i].nodePort in ig.namedPorts
  {
    hide F.FirstTag, World.NamedPorts;
    forall c | c in ig.igs ensures ReadyGroup(a.w, ig.igs[c], ports) {
      assert GroupsReady(a.w, c, ports);
    }
    var c :| c in a.clients;
    assert GroupsReady(a.w, c, ports);
    assert c in ig.igs;
    hide GroupsReady, GroupsOf;
  }

  lemma {:induction false} ServiceMapNames(n: Namer, ports: seq<ServicePort>, p: ServicePort)
    requires p in ports
    ensures p.svcName in B.ServiceMap(n, ports)
  {
    if p != ports[|ports| - 1] {
      ServiceMapNames(n, ports[..|ports| - 1], p);
    }
  }

  lemma TranslationComplete(a: Args, s: C.Store, inp: Inputs)
    requires InputStage(a, inp) && Complete(a, s, inp.ports)
    ensures Tr.AllFound(B.ServiceMap(a.Namer(), inp.ports), MentionedBackends(a.ing))
  {
    hide B.ServiceMap, MentionedBackends, GroupsReady, AddressOf;
    forall be | be in MentionedBackends(a.ing) ensures be.serviceName in B.ServiceMap(a.Namer(), inp.ports) {
      var p := a.w.ServicePortOf(inp.client, a.ing.namespace, be).value;
      ResolvedMembers(a.w, inp.client, a.ing.namespace, MentionedBackends(a.ing), p);
      ServiceMapNames(a.Namer(), inp.ports, p);
    }
  }

  // ---------- Backend services ----------

  /** What this run wants for a port is what any run would. */
  lemma WantedByAll(a: Args, ports: seq<ServicePort>, job: B.Job, ig: GroupPart, order: seq<string>,
                    want: C.Want<C.BackendService>,
                    be: C.BackendService, p: ServicePort, c: string, order': seq<string>)
    requires Steady(a, ports) && GroupStage(a, ig) && ig.err == Nil && ig.namedPorts != map[]
    requires Enumerates(order, a.clients) && job.groups == FlatMapped(GroupFn(ig.igs), order)
    requires job.namer == a.Namer() && job.lbName == a.lbName && job.namedPorts == ig.namedPorts
    requires B.WantFor(job, want, p) && job.hcs[p.nodePort] == H.Link(a.Namer(), p.nodePort)
    requires IsWantedService(a, be, p, c, order')
    ensures be == want.spec
  {
    hide NodePorts, H.Probeable, World.NamedPorts, Namer.Name, FlatMapped, Enumerates, Sort, B.Refs, GroupFn;
    var igs := GroupsOf(a.w, a.clients);
    var d :| d in igs && a.w.NamedPorts(igs[d][0]) == Some(ig.namedPorts);
    assert a.w.NamedPorts(igs[c][0]) == Some(ig.namedPorts);
    EnumerationsPermute(order, order', a.clients);
    FlatMappedPermute(GroupFn(igs), order, order');
    SortForgetsOrder(FlatMapped(GroupFn(igs), order), FlatMapped(GroupFn(igs), order'));
  }

  /** And it is wanted by this very run. */
  lemma WantedByThis(a: Args, job: B.Job, ig: GroupPart, order: seq<string>, want: C.Want<C.BackendService>,
                     p: ServicePort)
    requires GroupStage(a, ig) && ig.namedPorts != map[]
    requires Enumerates(order, a.clients) && job.groups == FlatMapped(GroupFn(ig.igs), order)
    requires job.namer == a.Namer() && job.lbName == a.lbName && job.namedPorts == ig.namedPorts
    requires B.WantFor(job, want, p) && job.hcs[p.nodePort] == H.Link(a.Namer(), p.nodePort)
    ensures exists c, order :: IsWantedService(a, want.spec, p, c, order)
  {
    hide World.NamedPorts, Namer.Name, FlatMapped, Enumerates, B.Desired, GroupFn;
    var d :| d in ig.igs && a.w.NamedPorts(ig.igs[d][0]) == Some(ig.namedPorts);
    assert IsWantedService(a, want.spec, p, d, order);
  }

  lemma ServicesUnique(a: Args, job: B.Job, wants: seq<C.Want<C.BackendService>>)
    requires SameContent(a, job.ports) && |wants| == |job.ports| && job.namer == a.Namer()
    requires forall i :: 0 <= i < |job.ports| ==> B.WantFor(job, wants[i], job.ports[i])
    ensures forall i, j :: 0 <= i < |wants| && 0 <= j < |wants| && wants[i].name == wants[j].name ==>
              wants[i] == wants[j]
  {
    hide Namer.Name, B.Supplied, B.Desired, H.SameWants;
    forall i, j | 0 <= i < |wants| && 0 <= j < |wants| && wants[i].name == wants[j].name ensures wants[i] == wants[j] {
      assert B.WantFor(job, wants[i], job.ports[i]) && B.WantFor(job, wants[j], job.ports[j]);
      NameDeterminesRole(a.lbName, BackendService(job.ports[i].nodePort), BackendService(job.ports[j].nodePort));
      SamePortWants(a, job, wants[i], wants[j], job.ports[i], job.ports[j]);
    }
  }

  /** Everything a run knows when it comes to backend services. */
  ghost predicate Ready(a: Args, ports: seq<ServicePort>, inp: Inputs, hc: HealthPart, ig: GroupPart) {
    && inp.ports == ports && Steady(a, ports) && LinksAll(a, inp, hc)
    && GroupStage(a, ig) && ig.err == Nil && ig.namedPorts != map[]
    && forall i :: 0 <= i < |ports| ==> ports[i].nodePort in ig.namedPorts
  }

  lemma ServicesListed(a: Args, t: C.Table<C.BackendService>, t': C.Table<C.BackendService>, ports: seq<ServicePort>,
                       inp: Inputs,
                       hc: HealthPart, ig: GroupPart, be: BackendPart)
    requires BackendStage(a, t, t', inp, hc, ig, be) && Ready(a, ports, inp, hc, ig)
    ensures |be.wants| == |ports|
    ensures forall i :: 0 <= i < |ports| ==> B.WantFor(BeJob(a, inp, hc, ig, be.groups), be.wants[i], ports[i])
    ensures Enumerates(be.order, a.clients) && be.groups == FlatMapped(GroupFn(ig.igs), be.order)
    ensures forall i :: 0 <= i < |ports| ==>
              ports[i].nodePort in hc.hcs && hc.hcs[ports[i].nodePort] == H.Link(a.Namer(), ports[i].nodePort)
  {
    forall i | 0 <= i < |ports| ensures B.Supplied(hc.hcs, ig.namedPorts, ports[i]) {
      assert LinkFor(a, hc, ports[i].nodePort);
    }
    WantsListed(a, t, t', inp, hc, ig, be);
    BackendGroups(a, t, t', inp, hc, ig, be);
    GroupKeys(a, ig);
    hide BackendStage, GroupStage, Steady, Namer.Name, B.WantFor, Enumerates, FlatMapped, B.ServiceMap, B.OwnServices;
    assert forall i :: 0 <= i < |ports| ==> LinkFor(a, hc, ports[i].nodePort);
  }

  lemma ServicesCompatible(a: Args, t: C.Table<C.BackendService>, t': C.Table<C.BackendService>,
                           ports: seq<ServicePort>, inp: Inputs,
                           hc: HealthPart, ig: GroupPart, be: BackendPart)
    requires BackendStage(a, t, t', inp, hc, ig, be) && Ready(a, ports, inp, hc, ig) && SameContent(a, ports)
    requires forall i :: 0 <= i < |ports| ==> ServiceFits(a, t, ports[i])
    ensures C.Compatible(t, be.wants)
  {
    hide BackendStage, GroupStage, Steady, Namer.Name, Enumerates, FlatMapped, LinksAll, SameContent, IsWantedService,
         B.Desired, B.Supplied, H.Link;
    ServicesListed(a, t, t', ports, inp, hc, ig, be);
    var job := BeJob(a, inp, hc, ig, be.groups);
    ServicesUnique(a, job, be.wants);
    forall i | 0 <= i < |be.wants| && be.wants[i].name in t ensures C.Holds(t, be.wants[i]) {
      assert B.WantFor(job, be.wants[i], ports[i]) && ServiceFits(a, t, ports[i]);
      var stored := t[be.wants[i].name].spec;
      var c, order :| IsWantedService(a, stored, ports[i], c, order);
      WantedByAll(a, ports, job, ig, be.order, be.wants[i], stored, ports[i], c, order);
    }
  }

  lemma ServicesFit(a: Args, t: C.Table<C.BackendService>, t': C.Table<C.BackendService>, ports: seq<ServicePort>,
                    inp: Inputs,
                    hc: HealthPart, ig: GroupPart, be: BackendPart)
    requires BackendStage(a, t, t', inp, hc, ig, be) && Ready(a, ports, inp, hc, ig) && !a.force
    requires C.AllHold(t', be.wants) && Extends(t, t')
    ensures forall i :: 0 <= i < |ports| ==> ServiceFits(a, t, ports[i])
  {
    ServicesListed(a, t, t', ports, inp, hc, ig, be);
    var job := BeJob(a, inp, hc, ig, be.groups);
    hide BackendStage, GroupStage, Steady, Namer.Name, Enumerates, FlatMapped, LinksAll, IsWantedService, B.Desired,
         B.Supplied, H.Link;
    forall i | 0 <= i < |ports| ensures ServiceFits(a, t, ports[i]) {
      assert B.WantFor(job, be.wants[i], ports[i]) && C.Holds(t', be.wants[i]);
      WantedByThis(a, job, ig, be.order, be.wants[i], ports[i]);
    }
  }

  lemma ServicesKept(a: Args, t: C.Table<C.BackendService>, t': C.Table<C.BackendService>, inp: Inputs, hc: HealthPart,
                     ig: GroupPart, be: BackendPart)
    requires BackendStage(a, t, t', inp, hc, ig, be) && !a.force
    ensures Extends(t, t') && (be.err == Nil ==> C.AllHold(t', be.wants))
  {
    hide Namer.Name, B.WantFor, B.Supplied, B.OwnServices, B.ServiceMap, FlatMapped, Enumerates, C.Settled, C.Wanted,
         C.Compatible, C.AllHold;
  }

  lemma BackendExactly(a: Args, t: C.Table<C.BackendService>, t': C.Table<C.BackendService>, ports: seq<ServicePort>,
                       inp: Inputs,
                       hc: HealthPart, ig: GroupPart, be: BackendPart)
    requires BackendStage(a, t, t', inp, hc, ig, be) && Ready(a, ports, inp, hc, ig) && a.reliable
    requires (!a.force ==> SameContent(a, ports))
    ensures be.err == Nil <==> a.force || forall i :: 0 <= i < |ports| ==> ServiceFits(a, t, ports[i])
    ensures be.err == Nil ==> be.services == B.ServiceMap(a.Namer(), ports)
  {
    ServicesListed(a, t, t', ports, inp, hc, ig, be);
    BackendGroups(a, t, t', inp, hc, ig, be);
    if !a.force {
      ServicesKept(a, t, t', inp, hc, ig, be);
      if be.err == Nil {
        ServicesFit(a, t, t', ports, inp, hc, ig, be);
      } else if forall i :: 0 <= i < |ports| ==> ServiceFits(a, t, ports[i]) {
        ServicesCompatible(a, t, t', ports, inp, hc, ig, be);
      }
    }
    hide Namer.Name, B.WantFor, B.Supplied, B.OwnServices, B.ServiceMap, FlatMapped, Enumerates, C.Settled, C.Wanted,
         C.Compatible, C.AllHold,
         GroupStage, Steady, LinksAll, ServiceFits, SameContent;
  }

  // ---------- Everything in front of them ----------

  lemma UrlMapExactly(a: Args, s: C.Store, s': C.Store, r: Run)
    requires UrlMapStage(a, s.urlMaps, s'.urlMaps, r.inp, r.be, r.um) && a.reliable
    requires a.ing.backend.Some? && Tr.AllFound(r.be.services, MentionedBackends(a.ing))
    ensures r.um.err == Nil <==> a.force || a.Namer().Name(UrlMap) !in s.urlMaps || SameOrder(a, s, r.um)
    ensures r.um.err == Nil ==> r.um.link == U.Link(a.Namer())
  {
    hide Namer.Name, MentionedBackends, Tr.AllFound, U.Wanted;
  }

  lemma HttpExactly(a: Args, s: C.Store, s': C.Store, r: Run)
    requires HttpStage(a, s.httpProxies, s'.httpProxies, s.forwardingRules, r.inp, r.um, r.http) && a.reliable
    requires r.um.link == U.Link(a.Namer())
    ensures r.http.proxyErr == Nil && r.http.ruleErr == Nil <==> a.force || HttpFits(a, s, r.inp.ip)
  {
    hide Namer.Name, T.DesiredHttp, R.DesiredHttp, T.PatchedHttp, R.Ensured;
  }

  lemma CertExactly(a: Args, s: C.Store, certs': C.Table<C.SslCertificate>, ports: seq<ServicePort>, r: Run)
    requires CertStage(a, s.sslCertificates, certs', s.httpsProxies, r.inp, r.https) && a.reliable && a.WantsHttps()
    requires Complete(a, s, r.inp.ports) && Steady(a, ports) && r.inp.client in a.clients
    ensures r.https.certErr == Nil <==>
            a.ing.preSharedCert != "" || CertMatches(a, s) ||
                (a.force && !(a.strict && C.SslCertificateInUse(s.httpsProxies, a.Namer().Name(SslCert))))
    ensures r.https.certErr == Nil ==> r.https.certLink == CertLink(a)
  {
    hide Namer.Name, C.SslCertificateInUse, NodePorts, MentionedBackends, GroupsReady, AddressOf, H.Probeable,
         World.NamedPorts, GroupsOf;
  }

  lemma HttpsExactly(a: Args, s: C.Store, s': C.Store, ports: seq<ServicePort>, r: Run)
    requires HttpsStage(a, s.sslCertificates, s'.sslCertificates, s.httpsProxies, s'.httpsProxies, s'.forwardingRules,
                        r.inp, r.um, r.http, r.https)
    requires a.reliable && Complete(a, s, r.inp.ports) && Steady(a, ports) && r.inp.client in a.clients
    requires r.um.link == U.Link(a.Namer())
    requires SameAt(s.forwardingRules, r.http.rules, a.Namer().Name(HttpsRule))
    ensures r.https.certErr == Nil && r.https.proxyErr == Nil && r.https.ruleErr == Nil <==>
            if a.force then CertFree(a, s) else HttpsFits(a, s, r.inp.ip)
  {
    if a.WantsHttps() {
      CertExactly(a, s, s'.sslCertificates, ports, r);
    }
    hide Namer.Name, CertStage, Complete, Steady, CertMatches, CertLink, C.SslCertificateInUse, T.DesiredHttps,
         R.DesiredHttps, T.PatchedHttps, R.Ensured;
  }

  lemma FirewallExactly(a: Args, s: C.Store, s': C.Store, r: Run)
    requires FirewallStage(a, s.firewalls, s'.firewalls, r.inp, r.ig, r.fw) && a.reliable && F.TagsKnown(a.w, r.ig.igs)
    requires r.ig.igs == GroupsOf(a.w, a.clients) && r.ig.igs.Keys == a.clients
    ensures r.fw.err == Nil <==> a.force || FirewallFits(a, s.firewalls, r.inp.ports)
  {
    hide Namer.Name, F.TagsKnown, F.Fill, GroupsOf, Enumerates, Mapped, F.TagOf, F.PortStrings, Sort;
    var want := r.fw.want.value;
    var order :| Enumerates(order, a.clients) &&
        want == F.Desired(a.lbName, r.inp.ports, Mapped(F.TagOf(a.w, r.ig.igs), order), want.network);
    var name := a.Namer().Name(Firewall);
    if name in s.firewalls {
      assert F.Matches(want, s.firewalls[name].spec) <==>
        F.Matches(F.Desired(a.lbName, r.inp.ports, Mapped(F.TagOf(a.w, r.ig.igs), order), ""), s.firewalls[name].spec);
      if FirewallFits(a, s.firewalls, r.inp.ports) {
        var other :| Enumerates(other, a.clients) &&
          F.Matches(F.Desired(a.lbName, r.inp.ports, Mapped(F.TagOf(a.w, r.ig.igs), other), ""),
                    s.firewalls[name].spec);
        SameTags(a.w, r.ig.igs, order, other);
      }
    }
  }

  lemma SameTags(w: World, igs: map<string, Groups>, x: seq<string>, y: seq<string>)
    requires Enumerates(x, igs.Keys) && Enumerates(y, igs.Keys)
    ensures Sort(Mapped(F.TagOf(w, igs), x)) == Sort(Mapped(F.TagOf(w, igs), y))
  {
    EnumerationsPermute(x, y, igs.Keys);
    MappedPermute(F.TagOf(w, igs), x, y);
    SortForgetsOrder(Mapped(F.TagOf(w, igs), x), Mapped(F.TagOf(w, igs), y));
  }

  // ---------- The whole run ----------

  lemma RunIsFull(a: Args, s: C.Store, s': C.Store, ports: seq<ServicePort>, err: Err, r: Run)
    requires CreateRun(a, s, s', err, r) && Complete(a, s, ports) && Steady(a, ports)
    ensures FullRun(a, s, s', err, r) && r.inp.ports == ports && F.TagsKnown(a.w, r.ig.igs)
    ensures r.ig.err == Nil && forall i :: 0 <= i < |ports| ==> ports[i].nodePort in r.ig.namedPorts
    ensures Tr.AllFound(B.ServiceMap(a.Namer(), ports), MentionedBackends(a.ing))
  {
    hide HealthStage, GroupStage, BackendStage, UrlMapStage, HttpStage, HttpsStage, FirewallStage, NodePorts,
         H.Probeable, GroupsOf, AddressOf,
         Namer.Name, B.ServiceMap, F.TagsKnown, GroupsReady, MentionedBackends, Tr.AllFound;
    if GroupStage(a, r.ig) {
      GroupsComplete(a, ports, r.ig);
    }
    TranslationComplete(a, s, r.inp);
  }

  lemma BackExactly(a: Args, s: C.Store, s': C.Store, ports: seq<ServicePort>, err: Err, r: Run)
    requires FullRun(a, s, s', err, r) && a.reliable && Steady(a, ports) && r.inp.ports == ports && r.ig.err == Nil
    requires forall i :: 0 <= i < |ports| ==> ports[i].nodePort in r.ig.namedPorts
    ensures r.hc.err == Nil && r.be.err == Nil <==> a.force || PortsFit(a, s, ports)
    ensures r.hc.err == Nil && r.be.err == Nil ==> r.be.services == B.ServiceMap(a.Namer(), ports)
  {
    hide HealthStage, GroupStage, BackendStage, UrlMapStage, HttpStage, HttpsStage, FirewallStage, InputStage,
         NodePorts, H.Probeable, GroupsOf,
         SameContent, CheckFits, ServiceFits, B.ServiceMap, LinksAll, Namer.Name, World.NamedPorts;
    HealthExactly(a, s.healthChecks, s'.healthChecks, r.inp, r.hc);
    if r.hc.err == Nil {
      assert Ready(a, ports, r.inp, r.hc, r.ig);
      BackendExactly(a, s.backendServices, s'.backendServices, ports, r.inp, r.hc, r.ig, r.be);
    }
  }

  lemma FrontExactly(a: Args, s: C.Store, s': C.Store, ports: seq<ServicePort>, err: Err, r: Run)
    requires FullRun(a, s, s', err, r) && a.reliable && Steady(a, ports) && r.inp.ports == ports && r.ig.err == Nil
    requires Complete(a, s, ports) && F.TagsKnown(a.w, r.ig.igs) && Tr.AllFound(r.be.services, MentionedBackends(a.ing))
    ensures r.um.err == Nil <==> a.force || a.Namer().Name(UrlMap) !in s.urlMaps || SameOrder(a, s, r.um)
    ensures r.um.err == Nil ==>
              (r.http.proxyErr == Nil && r.http.ruleErr == Nil <==> a.force || HttpFits(a, s, r.inp.ip))
    ensures r.um.err == Nil ==>
              (r.https.certErr == Nil && r.https.proxyErr == Nil && r.https.ruleErr == Nil <==>
               if a.force then CertFree(a, s) else HttpsFits(a, s, r.inp.ip))
    ensures r.fw.err == Nil <==> a.force || FirewallFits(a, s.firewalls, ports)
  {
    hide HealthStage, GroupStage, BackendStage, UrlMapStage, HttpStage, HttpsStage, FirewallStage, NodePorts, GroupsOf,
         Steady,
         Namer.Name, F.TagsKnown, Tr.AllFound, MentionedBackends, HttpFits, HttpsFits, CertFree, FirewallFits,
         SameOrder, U.Link, GroupsReady,
         AddressOf, SameAt;
    GroupKeys(a, r.ig);
    FirewallExactly(a, s, s', r);
    UrlMapExactly(a, s, s', r);
    if r.um.err == Nil {
      HttpExactly(a, s, s', r);
      HttpsRuleSame(a, s, s', r);
      HttpsExactly(a, s, s', ports, r);
    }
  }

  /** From any store, in a cloud that works and with all answers there: a forced
      create returns no error if and only if no different certificate is in use,
      and an unforced one if and only if every name that is taken holds what is
      wanted. */
  lemma CreateSucceedsExactlyWhen(a: Args, s: C.Store, s': C.Store, ports: seq<ServicePort>, err: Err, r: Run)
    requires CreateRun(a, s, s', err, r) && a.reliable && Complete(a, s, ports) && Steady(a, ports)
    ensures AddressOf(a.w, a.ing) == Some(r.inp.ip)
    ensures a.force ==> (err == Nil <==> CertFree(a, s))
    ensures !a.force ==>
              (err == Nil <==>
               NothingInTheWay(a, s, ports, r.inp.ip) && (a.Namer().Name(UrlMap) in s.urlMaps ==>
                     SameOrder(a, s, r.um)))
  {
    hide FullRun, Complete, Steady, PortsFit, HttpFits, HttpsFits, CertFree, FirewallFits, SameOrder,
         B.ServiceMap, F.TagsKnown, Tr.AllFound, MentionedBackends, Namer.Name, AddressOf, HealthStage, GroupStage;
    RunIsFull(a, s, s', ports, err, r);
    FoundAddress(a, s, s', err, r);
    BackExactly(a, s, s', ports, err, r);
    ErrorsDecide(a, s, s', err, r);
    if r.hc.err == Nil && r.be.err == Nil {
      FrontExactly(a, s, s', ports, err, r);
    }
  }

  lemma FoundAddress(a: Args, s: C.Store, s': C.Store, err: Err, r: Run)
    requires FullRun(a, s, s', err, r)
    ensures AddressOf(a.w, a.ing) == Some(r.inp.ip)
  {
    hide HealthStage, GroupStage, BackendStage, UrlMapStage, HttpStage, HttpsStage, FirewallStage, AddressOf;
  }

  // ---------- Absent names, and recovery ----------

  lemma AbsentFits(a: Args, s: C.Store, ports: seq<ServicePort>, ip: string)
    requires Absent(a.Namer(), s)
    ensures NothingInTheWay(a, s, ports, ip) <==> SameContent(a, ports)
    ensures CertFree(a, s) && a.Namer().Name(UrlMap) !in s.urlMaps
  {
    hide Namer.Name, SameContent, IsWantedService, F.Matches, C.SslCertificateInUse;
  }

  /** In a cloud that works and with all answers there, a create on absent names
      succeeds if and only if it is forced or service ports of one node port
      agree. */
  lemma FreshCreateSucceeds(a: Args, s: C.Store, s': C.Store, ports: seq<ServicePort>, err: Err, r: Run)
    requires CreateRun(a, s, s', err, r) && a.reliable
    requires Absent(a.Namer(), s) && Complete(a, s, ports) && Steady(a, ports)
    ensures err == Nil <==> a.force || SameContent(a, ports)
    ensures err == Nil ==> CompleteChain(a, s, s', r.inp) && r.inp.ports == ports
  {
    hide CreateRun, NodePorts, CompleteChain, H.Probeable, Complete, GroupsOf, SameContent, NothingInTheWay, CertFree,
         SameOrder, Absent, Namer.Name;
    CreateSucceedsExactlyWhen(a, s, s', ports, err, r);
    AbsentFits(a, s, ports, r.inp.ip);
    if err == Nil {
      SuccessfulCreateIsComplete(a, s, s', r);
    }
  }

  /** A certificate written by this load balancer's first create is the one its
      clusters hold. */
  lemma OwnCertMatches(a: Args, s: C.Store, s1: C.Store, ports: seq<ServicePort>, err: Err, r: Run)
    requires CreateRun(a, s, s1, err, r) && Absent(a.Namer(), s) && Steady(a, ports)
    ensures a.WantsHttps() && a.ing.preSharedCert == "" ==> CertMatches(a, s1)
  {
    hide HealthStage, GroupStage, BackendStage, UrlMapStage, HttpStage, HttpsStage, FirewallStage, AddressOf,
         Namer.Name, Absent, Steady, CertMatches,
         NodePorts;
    NoOwnCert(a, s);
    if FullRun(a, s, s1, err, r) && a.WantsHttps() && a.ing.preSharedCert == "" {
      WrittenCertMatches(a, s, s1, ports, r);
    } else if a.Namer().Name(SslCert) !in s1.sslCertificates {
      NoCertMatches(a, s1);
    }
  }

  lemma NoOwnCert(a: Args, s: C.Store)
    requires Absent(a.Namer(), s)
    ensures a.Namer().Name(SslCert) !in s.sslCertificates
  {
    hide Namer.Name;
  }

  lemma NoCertMatches(a: Args, s: C.Store)
    requires a.Namer().Name(SslCert) !in s.sslCertificates
    ensures CertMatches(a, s)
  {
    hide Namer.Name;
  }

  lemma WrittenCertMatches(a: Args, s: C.Store, s1: C.Store, ports: seq<ServicePort>, r: Run)
    requires HttpsStage(a, s.sslCertificates, s1.sslCertificates, s.httpsProxies, s1.httpsProxies, s1.forwardingRules,
                        r.inp, r.um, r.http, r.https)
    requires a.WantsHttps() && a.ing.preSharedCert == "" && a.Namer().Name(SslCert) !in s.sslCertificates
    requires r.inp.client in a.clients && Steady(a, ports)
    ensures CertMatches(a, s1)
  {
    hide Namer.Name, T.Outcome, R.Outcome, C.SslCertificateInUse, NodePorts, H.Probeable, World.NamedPorts, GroupsOf;
  }

  /** Recovery: however a create on absent names failed, the same create with
      force, once the cloud works and all answers are there, succeeds and leaves a
      complete chain. */
  lemma ForceRecovers(a: Args, b: Args, s: C.Store, s1: C.Store, s2: C.Store, ports: seq<ServicePort>, err: Err,
                      err': Err, r: Run, r': Run)
    requires CreateRun(a, s, s1, err, r) && Absent(a.Namer(), s) && SameInputs(a, b) && b.force && b.reliable
    requires CreateRun(b, s1, s2, err', r') && Complete(b, s1, ports) && Steady(b, ports)
    ensures err' == Nil && CompleteChain(b, s1, s2, r'.inp) && r'.inp.ports == ports
  {
    SameSteady(a, b, ports);
    OwnCertMatches(a, s, s1, ports, err, r);
    CreateSucceedsExactlyWhen(b, s1, s2, ports, err', r');
    hide CreateRun, NodePorts, CompleteChain, H.Probeable, Complete, GroupsOf, NothingInTheWay, SameOrder, Absent,
         Namer.Name, C.SslCertificateInUse;
    SuccessfulCreateIsComplete(b, s1, s2, r');
  }

  lemma SameSteady(a: Args, b: Args, ports: seq<ServicePort>)
    requires SameInputs(a, b) && Steady(b, ports)
    ensures Steady(a, ports)
  {
    hide NodePorts, H.Probeable, World.NamedPorts;
  }
}
