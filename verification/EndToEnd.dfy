/** From a host and path to the backend service of a node port, through the map
    that is keyed by service name only. */
module EndToEnd {
  import opened Prelude
  import opened Names
  import opened Ingress
  import opened LoadBalancer
  import opened CreateRuns
  import opened Chains
  import Tr = Translation
  import C = Cloud
  import B = BackendServices
  import U = UrlMaps

  /** The node port of the last service port with this service name. */
  function LastPort(ports: seq<ServicePort>, name: string): Option<Port> {
    if ports == [] then None
    else if ports[|ports| - 1].svcName == name then Some(ports[|ports| - 1].nodePort)
    else LastPort(ports[..|ports| - 1], name)
  }

  /** The map EnsureBackendService returns: of several ports of one service, the
      last one stands for all. */
  lemma {:induction false} ServiceMapMeaning(n: Namer, ports: seq<ServicePort>, name: string)
    ensures name in B.ServiceMap(n, ports) <==> LastPort(ports, name).Some?
    ensures name in B.ServiceMap(n, ports) ==> B.ServiceMap(n, ports)[name] == B.Link(n, LastPort(ports, name).value)
  {
    if ports != [] {
      ServiceMapMeaning(n, ports[..|ports| - 1], name);
    }
  }

  lemma {:induction false} LastPortIsListed(ports: seq<ServicePort>, name: string)
    requires LastPort(ports, name).Some?
    ensures exists p :: p in ports && p.svcName == name && p.nodePort == LastPort(ports, name).value
  {
    if ports[|ports| - 1].svcName != name {
      LastPortIsListed(ports[..|ports| - 1], name);
      var p :| p in ports[..|ports| - 1] && p.svcName == name &&
          p.nodePort == LastPort(ports[..|ports| - 1], name).value;
      assert p in ports;
    } else {
      assert ports[|ports| - 1] in ports;
    }
  }

  lemma {:induction false} ListedHasLast(ports: seq<ServicePort>, p: ServicePort)
    requires p in ports
    ensures LastPort(ports, p.svcName).Some?
  {
    if ports[|ports| - 1].svcName != p.svcName {
      ListedHasLast(ports[..|ports| - 1], p);
    }
  }

  /** The node port of a backend, as one cluster reports it. */
  function OwnPort(w: World, client: string, ing: Spec, be: Backend): Option<Port> {
    match w.service(client, be)
    case None => None
    case Some((port, _)) => Some(port)
  }

  /** Every backend can be found, and no service name is used with two node
      ports. */
  ghost predicate OnePortPerService(w: World, client: string, ing: Spec) {
    forall be, be' ::
      (be in MentionedBackends(ing) && be' in MentionedBackends(ing) && be.serviceName == be'.serviceName) ==>
      OwnPort(w, client, ing, be).Some? && OwnPort(w, client, ing, be) == OwnPort(w, client, ing, be')
  }

  /** The backend is sent to the backend service of its own node port. */
  ghost predicate SentToOwnPort(n: Namer, w: World, client: string, ing: Spec, be: Backend) {
    var own := OwnPort(w, client, ing, be);
    && own.Some?
    && Tr.ServiceLink(B.ServiceMap(n, NodePorts(w, client, ing)), be) ==
       C.SelfLink(C.BackendServices, n.Name(BackendService(own.value)))
  }

  lemma MentionedPort(w: World, client: string, ing: Spec, be: Backend)
    requires be in MentionedBackends(ing) && OwnPort(w, client, ing, be).Some?
    ensures w.ServicePortOf(client, ing.namespace, be).value in NodePorts(w, client, ing)
  {
    ResolvedMembers(w, client, ing.namespace, MentionedBackends(ing), w.ServicePortOf(client, ing.namespace, be).value);
  }

  lemma PortIsMentioned(w: World, client: string, ing: Spec, p: ServicePort) returns (be: Backend)
    requires p in NodePorts(w, client, ing)
    ensures be in MentionedBackends(ing) && OwnPort(w, client, ing, be) == Some(p.nodePort)
    ensures be.serviceName == p.svcName
  {
    ResolvedMembers(w, client, ing.namespace, MentionedBackends(ing), p);
    be :| be in MentionedBackends(ing) && w.ServicePortOf(client, ing.namespace, be) == Some(p);
  }

  lemma FoundUnderItsName(w: World, client: string, ing: Spec, be: Backend)
    requires OnePortPerService(w, client, ing) && be in MentionedBackends(ing)
    ensures LastPort(NodePorts(w, client, ing), be.serviceName) == OwnPort(w, client, ing, be)
  {
    var ports := NodePorts(w, client, ing);
    MentionedPort(w, client, ing, be);
    ListedHasLast(ports, w.ServicePortOf(client, ing.namespace, be).value);
    LastPortIsListed(ports, be.serviceName);
    var p :| p in ports && p.svcName == be.serviceName && p.nodePort == LastPort(ports, be.serviceName).value;
    var be' := PortIsMentioned(w, client, ing, p);
  }

  /** All backends of an ingress are sent to their own node ports exactly if no
      service name is used with two of them. */
  lemma OwnPortsExactly(l: string, w: World, client: string, ing: Spec)
    ensures OnePortPerService(w, client, ing) <==>
            forall be :: be in MentionedBackends(ing) ==> SentToOwnPort(MciNamer(l), w, client, ing, be)
  {
    hide MentionedBackends, NodePorts, Namer.Name;
    var n, ports := MciNamer(l), NodePorts(w, client, ing);
    if OnePortPerService(w, client, ing) {
      forall be | be in MentionedBackends(ing) ensures SentToOwnPort(n, w, client, ing, be) {
        FoundUnderItsName(w, client, ing, be);
        ServiceMapMeaning(n, ports, be.serviceName);
      }
    }
    if forall be :: be in MentionedBackends(ing) ==> SentToOwnPort(n, w, client, ing, be) {
      forall be, be' | be in MentionedBackends(ing) && be' in MentionedBackends(ing) &&
          be.serviceName == be'.serviceName
        ensures OwnPort(w, client, ing, be).Some? && OwnPort(w, client, ing, be) == OwnPort(w, client, ing, be')
      {
        assert SentToOwnPort(n, w, client, ing, be) && SentToOwnPort(n, w, client, ing, be');
        NameDeterminesRole(l, BackendService(OwnPort(w, client, ing, be).value),
                           BackendService(OwnPort(w, client, ing, be').value));
      }
    }
  }

  /** Where the ingress sends a host and path; the literal host DefaultBackend
      is lost in translation. */
  function Destination(ing: Spec, host: string, path: string): Backend
    requires ing.backend.Some?
  {
    if host == Tr.DEFAULT_BACKEND_KEY then ing.backend.value else Tr.Route(ing, host, path)
  }

  lemma DestinationIsMentioned(ing: Spec, host: string, path: string)
    requires ing.backend.Some?
    ensures Destination(ing, host, path) in MentionedBackends(ing)
  {
    assert MentionedBackends(ing)[0] == ing.backend.value;
    var rule := Tr.LastRule(ing.rules, host);
    if rule.Some? {
      LastRuleBackends(ing.rules, host);
      if Tr.LastEntry(rule.value, path).Some? {
        LastEntryBackend(rule.value, path);
      }
    }
  }

  lemma StoredTranslation(a: Args, s: C.Store, s': C.Store, r: Run)
    requires CreateRun(a, s, s', Nil, r)
    ensures var name := a.Namer().Name(UrlMap);
            && name in s'.urlMaps
            && Tr.Translates(s'.urlMaps[name].spec, a.ing, B.ServiceMap(a.Namer(), r.inp.ports), a.hash)
  {
    hide HealthStage, GroupStage, BackendStage, HttpStage, HttpsStage, FirewallStage, InputStage, AddressOf, Namer.Name,
         B.ServiceMap, Tr.Translates,
         U.Translatable, Enumerates, FlatMapped, B.OwnServices;
    BackendGroups(a, s.backendServices, s'.backendServices, r.inp, r.hc, r.ig, r.be);
  }

  /** After a successful create, every host and path is sent by the stored URL
      map to the stored backend service of the node port that the ingress and
      the clusters mean, over the groups of all clusters. */
  lemma RequestsReachTheirPort(a: Args, s: C.Store, s': C.Store, r: Run, host: string, path: string)
    requires CreateRun(a, s, s', Nil, r) && OnePortPerService(a.w, r.inp.client, a.ing)
    requires Tr.InjectiveOn(a.hash, Tr.HostTable(a.ing.rules, B.ServiceMap(a.Namer(), r.inp.ports)).Keys)
    ensures a.ing.backend.Some? && a.Namer().Name(UrlMap) in s'.urlMaps
    ensures var port := OwnPort(a.w, r.inp.client, a.ing, Destination(a.ing, host, path));
            && port.Some?
            && Tr.Lookup(s'.urlMaps[a.Namer().Name(UrlMap)].spec, host, path) ==
               C.SelfLink(C.BackendServices, a.Namer().Name(BackendService(port.value)))
            && PortServed(a, s', r.inp.ports, port.value)
  {
    hide CreateRun, CompleteChain, Namer.Name, B.ServiceMap, Tr.Translates, Tr.Lookup, PortServed, MentionedBackends,
         NodePorts,
         Tr.InjectiveOn, AddressOf;
    StoredTranslation(a, s, s', r);
    SuccessfulCreateIsComplete(a, s, s', r);
    var um, services := s'.urlMaps[a.Namer().Name(UrlMap)].spec, B.ServiceMap(a.Namer(), r.inp.ports);
    TranslatedHasDefault(um, a.ing, services, a.hash);
    var be := Destination(a.ing, host, path);
    DestinationIsMentioned(a.ing, host, path);
    Tr.RoutingPreserved(um, a.ing, services, a.hash, host, path);
    OwnPortsExactly(a.lbName, a.w, r.inp.client, a.ing);
    assert SentToOwnPort(a.Namer(), a.w, r.inp.client, a.ing, be);
    MentionedPort(a.w, r.inp.client, a.ing, be);
    ChainServes(a, s, s', r.inp, a.w.ServicePortOf(r.inp.client, a.ing.namespace, be).value);
  }

  lemma TranslatedHasDefault(um: C.UrlMap, ing: Spec, services: map<string, C.Link>, hash: string -> string)
    requires Tr.Translates(um, ing, services, hash)
    ensures ing.backend.Some?
  {
  }
}
