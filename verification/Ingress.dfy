/** The ingress a user writes, and everything a run learns from the clusters
    and from the parts of GCP it only reads. */
module Ingress {
  import opened Prelude
  import opened Names
  import GroupLinks

  datatype Backend = Backend(serviceName: string, servicePort: string)

  datatype PathEntry = PathEntry(path: string, backend: Backend)

  /** `http` is None for a rule without an HTTP section. */
  datatype Rule = Rule(host: string, http: Option<seq<PathEntry>>)

  datatype Spec = Spec(
    namespace: string,
    backend: Option<Backend>,
    rules: seq<Rule>,
    staticIpName: string,
    allowHttp: bool,
    preSharedCert: string,
    hasTls: bool)

  datatype ServicePort = ServicePort(
    nodePort: Port,
    protocol: string,
    namespace: string,
    svcName: string,
    svcPort: string)
  {
    /** ServicePort.Description of ingress-gce; the service name is never empty
        because it holds the slash between namespace and name. */
    function Description(): string {
      if svcPort == "" then ""
      else "{\"kubernetes.io/service-name\":\"" + namespace + "/" + svcName +
           "\",\"kubernetes.io/service-port\":\"" + svcPort + "\"}"
    }
  }

  /** Result of looking for a readiness probe. */
  datatype Probe = ProbeError | NoProbe | HttpProbe(path: string)

  datatype Instance = Instance(tags: seq<string>, networks: seq<string>)

  datatype TlsSecret = TlsSecret(cert: string, key: string)

  /** getIGsForCluster waits until there is at least one group. */
  type Groups = s: seq<string> | |s| > 0 witness [""]

  /** Answers of the world outside the resources kubemci manages, during one run.
      Clusters are identified by name; a group by its link. */
  datatype World = World(
    service: (string, Backend) -> Option<(Port, string)>,
    probe: (string, ServicePort) -> Probe,
    groups: string -> Option<Groups>,
    namedPortsOf: (string, string) -> Option<map<Port, string>>,
    instance: string -> Option<Instance>,
    address: string -> Option<string>,
    tlsSecret: string -> Option<TlsSecret>)
  {
    /** GetServiceNodePort: the port carries the name it was looked up by. */
    function ServicePortOf(cluster: string, namespace: string, be: Backend): Option<ServicePort> {
      match service(cluster, be)
      case None => None
      case Some((port, protocol)) => Some(ServicePort(port, protocol, namespace, be.serviceName, be.servicePort))
    }

    /** The probes for one port, by cluster. */
    function Probes(port: ServicePort): string -> Probe {
      c => probe(c, port)
    }

    /** getNamedPortsForIG: named ports of the group a link denotes. */
    function NamedPorts(group: string): Option<map<Port, string>> {
      match GroupLinks.ZoneAndName(group, GroupLinks.IG_SEPARATOR)
      case None => None
      case Some((zone, name)) => namedPortsOf(zone, name)
    }
  }

  function PathBackends(paths: seq<PathEntry>): (r: seq<Backend>)
    ensures forall be :: be in r <==> exists i :: 0 <= i < |paths| && paths[i].backend == be
  {
    if paths == [] then [] else PathBackends(paths[..|paths| - 1]) + [paths[|paths| - 1].backend]
  }

  function RuleBackends(rules: seq<Rule>): seq<Backend> {
    if rules == [] then []
    else
      var last := rules[|rules| - 1];
      RuleBackends(rules[..|rules| - 1]) + (if last.http.Some? then PathBackends(last.http.value) else [])
  }

  /** Every backend an ingress mentions, the default first. */
  function MentionedBackends(ing: Spec): seq<Backend> {
    (if ing.backend.Some? then [ing.backend.value] else []) + RuleBackends(ing.rules)
  }

  /** The service ports that could be found, in order. */
  function Resolved(w: World, cluster: string, namespace: string, bes: seq<Backend>): seq<ServicePort> {
    if bes == [] then []
    else
      var p := w.ServicePortOf(cluster, namespace, bes[|bes| - 1]);
      Resolved(w, cluster, namespace, bes[..|bes| - 1]) + (if p.Some? then [p.value] else [])
  }

  function NodePorts(w: World, cluster: string, ing: Spec): seq<ServicePort> {
    Resolved(w, cluster, ing.namespace, MentionedBackends(ing))
  }

  lemma {:induction false} ResolvedConcat(w: World, cluster: string, namespace: string, a: seq<Backend>,
                                          b: seq<Backend>)
    ensures Resolved(w, cluster, namespace, a + b) ==
            Resolved(w, cluster, namespace, a) + Resolved(w, cluster, namespace, b)
  {
    if b == [] {
      assert a + b == a;
    } else {
      assert (a + b)[..|a + b| - 1] == a + b[..|b| - 1];
      ResolvedConcat(w, cluster, namespace, a, b[..|b| - 1]);
    }
  }

  /** The inner loop of ingToNodePorts: the paths of one rule. */
  method PathPorts(w: World, cluster: string, namespace: string, paths: seq<PathEntry>)
    returns (ports: seq<ServicePort>)
    ensures ports == Resolved(w, cluster, namespace, PathBackends(paths))
  {
    ports := [];
    for j := 0 to |paths|
      invariant ports == Resolved(w, cluster, namespace, PathBackends(paths[..j]))
    {
      assert paths[..j + 1][..j] == paths[..j];
      var bes := PathBackends(paths[..j + 1]);
      assert bes[..|bes| - 1] == PathBackends(paths[..j]);
      var p := w.ServicePortOf(cluster, namespace, paths[j].backend);
      if p.None? {
        continue;
      }
      ports := ports + [p.value];
    }
    assert paths[..|paths|] == paths;
  }

  lemma RuleStep(w: World, cluster: string, namespace: string, rules: seq<Rule>, i: nat)
    requires i < |rules|
    ensures Resolved(w, cluster, namespace, RuleBackends(rules[..i + 1])) ==
            (var before := Resolved(w, cluster, namespace, RuleBackends(rules[..i]));
             if rules[i].http.None? then before
             else before + Resolved(w, cluster, namespace, PathBackends(rules[i].http.value)))
  {
    assert rules[..i + 1][..i] == rules[..i];
    if rules[i].http.Some? {
      ResolvedConcat(w, cluster, namespace, RuleBackends(rules[..i]), PathBackends(rules[i].http.value));
    } else {
      assert RuleBackends(rules[..i + 1]) == RuleBackends(rules[..i]);
    }
  }

  /** ingToNodePorts: unresolvable backends are skipped. */
  method IngToNodePorts(w: World, cluster: string, ing: Spec) returns (ports: seq<ServicePort>)
    ensures ports == NodePorts(w, cluster, ing)
  {
    var known: seq<ServicePort>, rest: seq<ServicePort> := [], [];
    if ing.backend.Some? {
      var p := w.ServicePortOf(cluster, ing.namespace, ing.backend.value);
      known := if p.Some? then [p.value] else [];
    }
    for i := 0 to |ing.rules|
      invariant rest == Resolved(w, cluster, ing.namespace, RuleBackends(ing.rules[..i]))
    {
      var rule := ing.rules[i];
      RuleStep(w, cluster, ing.namespace, ing.rules, i);
      if rule.http.None? {
        continue;
      }
      var more := PathPorts(w, cluster, ing.namespace, rule.http.value);
      rest := rest + more;
    }
    ports := known + rest;
    assert ing.rules[..|ing.rules|] == ing.rules;
    var default := if ing.backend.Some? then [ing.backend.value] else [];
    ResolvedConcat(w, cluster, ing.namespace, default, RuleBackends(ing.rules));
  }

  /** A service port found for an ingress answers for a backend the ingress
      mentions, and every mentioned backend that can be found is answered for. */
  lemma {:induction false} ResolvedMembers(w: World, cluster: string, namespace: string, bes: seq<Backend>,
                                           p: ServicePort)
    ensures p in Resolved(w, cluster, namespace, bes) <==>
            exists be :: be in bes && w.ServicePortOf(cluster, namespace, be) == Some(p)
    ensures p in Resolved(w, cluster, namespace, bes) <==>
            exists be ::
              && be in bes && w.service(cluster, be) == Some((p.nodePort, p.protocol))
              && p.namespace == namespace && p.svcName == be.serviceName && p.svcPort == be.servicePort
  {
    if bes != [] {
      var front, last := bes[..|bes| - 1], bes[|bes| - 1];
      ResolvedMembers(w, cluster, namespace, front, p);
      assert forall be :: be in bes <==> be in front || be == last;
    }
  }

  /** Named ports are asked of the zone and group that a printed link denotes. */
  lemma NamedPortsOfLink(w: World, p: string, zone: string, name: string)
    requires GroupLinks.SlashFree(zone) && GroupLinks.SlashFree(name)
    requires !GroupLinks.Contains(p + "/" + zone, "/instanceGroups/") && zone != "instanceGroups"
    ensures w.NamedPorts(p + "/" + zone + "/instanceGroups/" + name) == w.namedPortsOf(zone, name)
  {
    GroupLinks.GroupLinkRoundTrip(p, zone, name);
    hide GroupLinks.ZoneAndName, GroupLinks.GroupLink;
  }

  /** How a service port is described. */
  lemma DescriptionSpelled()
    ensures ServicePort(80, "HTTP", "ns", "svc", "http").Description() ==
            "{\"kubernetes.io/service-name\":\"" + "ns/svc" + "\",\"kubernetes.io/service-port\":\"" + "http" + "\"}"
    ensures ServicePort(80, "HTTP", "ns", "svc", "").Description() == ""
  {
    assert "ns" + "/" + "svc" == "ns/svc";
    var head, tail := "{\"kubernetes.io/service-name\":\"", "\",\"kubernetes.io/service-port\":\"";
    assert head + "ns" + "/" + "svc" == head + ("ns" + "/" + "svc");
  }

  lemma {:induction false} RuleBackendsExactly(rules: seq<Rule>, be: Backend)
    ensures be in RuleBackends(rules) <==>
            exists i :: 0 <= i < |rules| && rules[i].http.Some? && HasPathTo(rules[i].http.value, be)
  {
    if rules != [] {
      var front, last := rules[..|rules| - 1], rules[|rules| - 1];
      RuleBackendsExactly(front, be);
      if i :| 0 <= i < |rules| && rules[i].http.Some? && HasPathTo(rules[i].http.value, be) {
        assert i < |front| ==> rules[i] == front[i];
      }
      if be in RuleBackends(front) {
        var i :| 0 <= i < |front| && front[i].http.Some? && HasPathTo(front[i].http.value, be);
        assert rules[i] == front[i];
      }
    }
  }

  predicate HasPathTo(paths: seq<PathEntry>, be: Backend) {
    exists j :: 0 <= j < |paths| && paths[j].backend == be
  }

  /** The backends an ingress mentions: its default, and those of its paths. */
  lemma MentionedExactly(ing: Spec, be: Backend)
    ensures be in MentionedBackends(ing) <==>
            || ing.backend == Some(be)
            || exists i :: 0 <= i < |ing.rules| && ing.rules[i].http.Some? && HasPathTo(ing.rules[i].http.value, be)
  {
    RuleBackendsExactly(ing.rules, be);
    if ing.backend.Some? {
      assert MentionedBackends(ing)[0] == ing.backend.value;
    }
  }

  /** ... in the order of rules and paths, behind the default. */
  lemma MentionedInOrder(ing: Spec, rule: Rule)
    ensures MentionedBackends(ing.(rules := [])) == if ing.backend.Some? then [ing.backend.value] else []
    ensures MentionedBackends(ing.(rules := ing.rules + [rule])) ==
            MentionedBackends(ing) + if rule.http.Some? then PathBackends(rule.http.value) else []
  {
    assert (ing.rules + [rule])[..|ing.rules|] == ing.rules;
  }

  lemma {:induction false} PathBackendsAt(paths: seq<PathEntry>)
    ensures |PathBackends(paths)| == |paths| && forall i :: 0 <= i < |paths| ==>
              PathBackends(paths)[i] == paths[i].backend
  {
    if paths != [] {
      PathBackendsAt(paths[..|paths| - 1]);
    }
  }

  /** So node ports come in that order too, those that cannot be found left out. */
  lemma NodePortsInOrder(w: World, cluster: string, ing: Spec, rule: Rule)
    ensures NodePorts(w, cluster, ing.(rules := ing.rules + [rule])) ==
            if rule.http.None? then NodePorts(w, cluster, ing)
            else NodePorts(w, cluster, ing) + Resolved(w, cluster, ing.namespace, PathBackends(rule.http.value))
  {
    MentionedInOrder(ing, rule);
    if rule.http.None? {
      assert MentionedBackends(ing) + [] == MentionedBackends(ing);
    } else {
      ResolvedConcat(w, cluster, ing.namespace, MentionedBackends(ing), PathBackends(rule.http.value));
    }
  }
}
