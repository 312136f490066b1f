/** The commands on a whole load balancer: create, delete, remove clusters. Each
    command is proved to follow a relation between the cloud before and after;
    the theorems about whole runs are proved of those relations. */
module LoadBalancer {
  import opened Prelude
  import opened Names
  import opened Ingress
  import opened Status
  import opened Sorting
  import C = Cloud
  import H = HealthChecks
  import B = BackendServices
  import U = UrlMaps
  import T = TargetProxies
  import S = SslCerts
  import R = ForwardingRules
  import F = FirewallRules

  /** What a command is given. */
  datatype Args = Args(
    lbName: string,
    codec: Codec,
    hash: string -> string,
    clients: set<string>,
    clusters: seq<string>,
    ing: Spec,
    w: World,
    force: bool,
    reliable: bool,
    strict: bool)
  {
    function Namer(): Namer { MciNamer(lbName) }

    predicate WantsHttps() { ing.preSharedCert != "" || ing.hasTls }
  }

  // ---------- What a run reads before it writes ----------

  /** getIGs: the groups of every cluster that can be asked. */
  function GroupsOf(w: World, clusters: set<string>): map<string, Groups> {
    map c | c in clusters && w.groups(c).Some? :: w.groups(c).value
  }

  method GetIGs(w: World, clusters: set<string>) returns (igs: map<string, Groups>, err: Err)
    ensures igs == GroupsOf(w, clusters)
    ensures err == Nil <==> forall c :: c in clusters ==> w.groups(c).Some?
  {
    var order := RangeOrder(clusters);
    igs, err := map[], Nil;
    for i := 0 to |order|
      invariant forall c :: c in igs <==> c in order[..i] && w.groups(c).Some?
      invariant forall c :: c in igs ==> w.groups(c) == Some(igs[c])
      invariant err == Nil <==> forall c :: c in order[..i] ==> w.groups(c).Some?
    {
      assert order[..i + 1] == order[..i] + [order[i]];
      var groups := w.groups(order[i]);
      if groups.None? {
        err := Append(err, Other);
        continue;
      }
      igs := igs[order[i] := groups.value];
    }
    assert order[..|order|] == order;
  }

  /** The groups of one cluster, for flattening. */
  function GroupFn(igs: map<string, Groups>): string -> seq<string> {
    c => if c in igs then igs[c] else []
  }

  /** The loop that flattens the groups of all clusters into one list. */
  method FlattenGroups(igs: map<string, Groups>) returns (groups: seq<string>, ghost order: seq<string>)
    ensures Enumerates(order, igs.Keys)
    ensures groups == FlatMapped(GroupFn(igs), order)
    ensures Elements(groups) == GroupSet(igs)
  {
    var names := RangeOrder(igs.Keys);
    order := names;
    groups := [];
    for i := 0 to |names|
      invariant groups == FlatMapped(GroupFn(igs), names[..i])
    {
      assert names[i] in names;
      assert names[..i + 1][..i] == names[..i];
      groups := groups + igs[names[i]];
    }
    assert names[..|names|] == names;
    FlatGroupsSet(igs, order);
  }

  /** These are the named ports of the first group of one of the clusters. */
  ghost predicate NamedPortsOf(w: World, igs: map<string, Groups>, namedPorts: map<Port, string>) {
    exists c :: c in igs && w.NamedPorts(igs[c][0]) == Some(namedPorts)
  }

  /** getNamedPorts: asks a group picked at random. */
  method GetNamedPorts(w: World, igs: map<string, Groups>) returns (namedPorts: map<Port, string>, err: Err)
    ensures err == Nil ==> NamedPortsOf(w, igs, namedPorts)
    ensures err != Nil ==> namedPorts == map[]
    ensures igs != map[] && (forall c :: c in igs ==> w.NamedPorts(igs[c][0]).Some?) ==> err == Nil
  {
    if igs == map[] {
      return map[], Other;
    }
    var c :| c in igs;
    var found := w.NamedPorts(igs[c][0]);
    if found.None? {
      return map[], Other;
    }
    return found.value, Nil;
  }

  /** getIPAddress. */
  function AddressOf(w: World, ing: Spec): Option<string> {
    if ing.staticIpName == "" then None else w.address(ing.staticIpName)
  }

  // ---------- Create ----------

  // What a create run computes on its way, stage by stage.

  datatype Inputs = Inputs(client: string, ports: seq<ServicePort>, ip: string)

  datatype HealthPart = HealthPart(hcs: map<Port, C.Link>, err: Err, wants: seq<C.Want<C.HealthCheck>>, ok: bool)

  datatype GroupPart = GroupPart(igs: map<string, Groups>, err: Err, namedPorts: map<Port, string>)

  datatype BackendPart = BackendPart(order: seq<string>, groups: seq<string>, services: map<string, C.Link>, err: Err,
                                     wants: seq<C.Want<C.BackendService>>, ok: bool)

  datatype UrlMapPart = UrlMapPart(link: C.Link, err: Err, want: Option<C.UrlMap>)

  datatype HttpPart = HttpPart(proxyErr: Err, ruleErr: Err, rules: C.Table<C.ForwardingRule>)

  datatype HttpsPart = HttpsPart(certLink: C.Link, certErr: Err, proxyErr: Err, ruleErr: Err)

  datatype FirewallPart = FirewallPart(err: Err, want: Option<C.Firewall>)

  datatype Run = Run(inp: Inputs, hc: HealthPart, ig: GroupPart, be: BackendPart, um: UrlMapPart,
                     http: HttpPart, https: HttpsPart, fw: FirewallPart)

  function HcJob(a: Args, inp: Inputs): H.Job {
    H.Job(a.Namer(), a.lbName, inp.ports, a.w, a.clients, a.force, a.reliable)
  }

  function BeJob(a: Args, inp: Inputs, hc: HealthPart, ig: GroupPart, groups: seq<string>): B.Job {
    B.Job(a.Namer(), a.lbName, inp.ports, hc.hcs, ig.namedPorts, groups, a.force, a.reliable)
  }

  function UmJob(a: Args, inp: Inputs, services: map<string, C.Link>): U.Job {
    U.Job(a.Namer(), a.codec, a.hash, a.lbName, inp.ip, a.clusters, a.ing, services, a.force, a.reliable)
  }

  function FwJob(a: Args, inp: Inputs, ig: GroupPart): F.Job {
    F.Job(a.Namer(), a.lbName, inp.ports, ig.igs, a.w, a.force, a.reliable)
  }

  function HttpTarget(a: Args, http: HttpPart): C.Link {
    if http.proxyErr == Nil then T.HttpLink(a.Namer()) else C.NoLink
  }

  function HttpsTarget(a: Args, https: HttpsPart): C.Link {
    if https.proxyErr == Nil then T.HttpsLink(a.Namer()) else C.NoLink
  }

  /** The node ports some client reports, and the reserved address. */
  ghost predicate InputStage(a: Args, inp: Inputs) {
    && inp.client in a.clients
    && inp.ports == NodePorts(a.w, inp.client, a.ing)
    && AddressOf(a.w, a.ing) == Some(inp.ip)
  }

  ghost predicate HealthStage(a: Args, t: C.Table<C.HealthCheck>, t': C.Table<C.HealthCheck>, inp: Inputs,
                              hc: HealthPart) {
    H.Progress(HcJob(a, inp), t, t', |inp.ports|, hc.hcs, hc.err, hc.wants, hc.ok)
  }

  /** The groups of every cluster, and the named ports of one of them. */
  ghost predicate GroupStage(a: Args, ig: GroupPart) {
    && ig.igs == GroupsOf(a.w, a.clients)
    && (ig.err == Nil <==> forall c :: c in a.clients ==> a.w.groups(c).Some?)
    && (ig.namedPorts != map[] ==> NamedPortsOf(a.w, ig.igs, ig.namedPorts))
    && (ig.namedPorts == map[] ==> ig.igs == map[] || SomeGroupWithoutPorts(a.w, ig.igs))
  }

  ghost predicate SomeGroupWithoutPorts(w: World, igs: map<string, Groups>) {
    exists c :: c in igs && (w.NamedPorts(igs[c][0]).None? || w.NamedPorts(igs[c][0]) == Some(map[]))
  }

  /** Backend services are ensured over the groups of all clusters. */
  ghost predicate BackendStage(a: Args, t: C.Table<C.BackendService>, t': C.Table<C.BackendService>, inp: Inputs,
                               hc: HealthPart, ig: GroupPart, be: BackendPart) {
    && Enumerates(be.order, ig.igs.Keys)
    && be.groups == FlatMapped(GroupFn(ig.igs), be.order)
    && B.Progress(BeJob(a, inp, hc, ig, be.groups), t, t', |inp.ports|, be.services, be.err, be.wants, be.ok)
  }

  ghost predicate UrlMapStage(a: Args, t: C.Table<C.UrlMap>, t': C.Table<C.UrlMap>, inp: Inputs, be: BackendPart,
                              um: UrlMapPart) {
    U.Outcome(UmJob(a, inp, be.services), t, t', um.link, um.err, um.want)
  }

  /** The HTTP proxy and rule, unless the ingress forbids HTTP. `http.rules` are
      the forwarding rules after this stage. */
  ghost predicate HttpStage(a: Args, proxies: C.Table<C.HttpProxy>, proxies': C.Table<C.HttpProxy>,
                            rules: C.Table<C.ForwardingRule>,
                            inp: Inputs, um: UrlMapPart, http: HttpPart) {
    if a.ing.allowHttp then
      var want := T.DesiredHttp(a.lbName, um.link);
      && T.Outcome(proxies, proxies', a.Namer().Name(HttpProxy), want,
                   T.PatchedHttp(proxies, a.Namer().Name(HttpProxy), want), a.force, http.proxyErr, a.reliable)
      && R.Outcome(rules, http.rules, a.Namer().Name(HttpRule),
                   R.DesiredHttp(a.lbName, inp.ip, HttpTarget(a, http)), a.force, http.ruleErr, a.reliable)
    else
      proxies' == proxies && http.rules == rules && http.proxyErr == Nil && http.ruleErr == Nil
  }

  ghost predicate CertStage(a: Args, certs: C.Table<C.SslCertificate>, certs': C.Table<C.SslCertificate>,
                            proxies: C.Table<C.HttpsProxy>, inp: Inputs, https: HttpsPart) {
    if a.ing.preSharedCert != "" then
      && certs' == certs
      && (https.certErr == Nil ==> a.ing.preSharedCert in certs)
      && (a.reliable && a.ing.preSharedCert in certs ==> https.certErr == Nil)
      && https.certLink == if https.certErr == Nil then C.SelfLink(C.SslCertificates, a.ing.preSharedCert) else C.NoLink
    else
      var secret := a.w.tlsSecret(inp.client);
      && (secret.None? ==> https.certErr != Nil && certs' == certs)
      && (secret.Some? ==>
            S.Outcome(certs, certs', a.Namer().Name(SslCert), S.Desired(a.lbName, secret.value),
                      a.strict &&
                          C.SslCertificateInUse(proxies, a.Namer().Name(SslCert)), a.force, https.certErr, a.reliable))
      && https.certLink == if https.certErr == Nil then S.OwnLink(a.Namer()) else C.NoLink
  }

  /** The certificate, the HTTPS proxy and rule, if the ingress asks for them. */
  ghost predicate HttpsStage(a: Args, certs: C.Table<C.SslCertificate>, certs': C.Table<C.SslCertificate>,
                             proxies: C.Table<C.HttpsProxy>, proxies': C.Table<C.HttpsProxy>,
                             rules': C.Table<C.ForwardingRule>, inp: Inputs, um: UrlMapPart, http: HttpPart,
                             https: HttpsPart) {
    if a.WantsHttps() then
      var want := T.DesiredHttps(a.lbName, um.link, https.certLink);
      && CertStage(a, certs, certs', proxies, inp, https)
      && T.Outcome(proxies, proxies', a.Namer().Name(HttpsProxy), want,
                   T.PatchedHttps(proxies, a.Namer().Name(HttpsProxy), want), a.force, https.proxyErr, a.reliable)
      && R.Outcome(http.rules, rules', a.Namer().Name(HttpsRule),
                   R.DesiredHttps(a.lbName, inp.ip, HttpsTarget(a, https)), a.force, https.ruleErr, a.reliable)
    else
      && proxies' == proxies && certs' == certs && rules' == http.rules
      && https.certErr == Nil && https.proxyErr == Nil && https.ruleErr == Nil
  }

  ghost predicate FirewallStage(a: Args, t: C.Table<C.Firewall>, t': C.Table<C.Firewall>, inp: Inputs, ig: GroupPart,
                                fw: FirewallPart) {
    F.Outcome(FwJob(a, inp, ig), t, t', fw.err, fw.want)
  }

  /** A create run that reached its end. */
  ghost predicate FullRun(a: Args, s: C.Store, s': C.Store, err: Err, r: Run) {
    && InputStage(a, r.inp)
    && HealthStage(a, s.healthChecks, s'.healthChecks, r.inp, r.hc)
    && GroupStage(a, r.ig) && r.ig.igs != map[] && r.ig.namedPorts != map[]
    && BackendStage(a, s.backendServices, s'.backendServices, r.inp, r.hc, r.ig, r.be)
    && UrlMapStage(a, s.urlMaps, s'.urlMaps, r.inp, r.be, r.um)
    && HttpStage(a, s.httpProxies, s'.httpProxies, s.forwardingRules, r.inp, r.um, r.http)
    && HttpsStage(a, s.sslCertificates, s'.sslCertificates, s.httpsProxies, s'.httpsProxies, s'.forwardingRules, r.inp,
                  r.um, r.http, r.https)
    && FirewallStage(a, s.firewalls, s'.firewalls, r.inp, r.ig, r.fw)
    && (err == Nil <==> NoErrors(r))
  }

  predicate NoErrors(r: Run) {
    && r.hc.err == Nil && r.ig.err == Nil && r.be.err == Nil && r.um.err == Nil
    && r.http.proxyErr == Nil && r.http.ruleErr == Nil
    && r.https.certErr == Nil && r.https.proxyErr == Nil && r.https.ruleErr == Nil
    && r.fw.err == Nil
  }

  /** A create run that gave up: for want of a client or an address before it
      wrote anything, for want of groups or named ports after the health checks. */
  ghost predicate EarlyRun(a: Args, s: C.Store, s': C.Store, err: Err, r: Run) {
    && err != Nil
    && s' == s.(healthChecks := s'.healthChecks)
    && (|| (a.clients == {} && s' == s)
        || (AddressOf(a.w, a.ing).None? && s' == s)
        || (&& InputStage(a, r.inp)
            && HealthStage(a, s.healthChecks, s'.healthChecks, r.inp, r.hc)
            && GroupStage(a, r.ig) && (r.ig.igs == map[] || r.ig.namedPorts == map[])))
  }

  ghost predicate CreateRun(a: Args, s: C.Store, s': C.Store, err: Err, r: Run) {
    FullRun(a, s, s', err, r) || EarlyRun(a, s, s', err, r)
  }

  // ---------- Delete ----------

  datatype DeleteErrs = DeleteErrs(fw: Err, fr: Err, tp: Err, tps: Err, sc: Err, um: Err, be: Err, hc: Err)

  /** The part of a delete that does not need the node ports. Each deletion is
      judged by the referring tables as they are by then. */
  ghost predicate FrontDeleted(a: Args, s: C.Store, s': C.Store, e: DeleteErrs) {
    var n := a.Namer();
    && C.Purged(s.firewalls, s'.firewalls, n.Name(Firewall), false, e.fw, a.reliable)
    && R.RulesPurged(n, s.forwardingRules, s'.forwardingRules, e.fr, a.reliable)
    && C.Purged(s.httpProxies, s'.httpProxies, n.Name(HttpProxy),
                a.strict && C.ProxyInUse(s'.forwardingRules, C.HttpProxies, n.Name(HttpProxy)), e.tp, a.reliable)
    && C.Purged(s.httpsProxies, s'.httpsProxies, n.Name(HttpsProxy),
                a.strict && C.ProxyInUse(s'.forwardingRules, C.HttpsProxies, n.Name(HttpsProxy)), e.tps, a.reliable)
    && C.Purged(s.sslCertificates, s'.sslCertificates, n.Name(SslCert),
                a.strict && C.SslCertificateInUse(s'.httpsProxies, n.Name(SslCert)), e.sc, a.reliable)
    && C.Purged(s.urlMaps, s'.urlMaps, n.Name(UrlMap),
                a.strict && C.UrlMapInUse(s'.httpProxies, s'.httpsProxies, n.Name(UrlMap)), e.um, a.reliable)
  }

  /** The part that does. */
  ghost predicate BackDeleted(a: Args, s: C.Store, s': C.Store, ports: seq<ServicePort>, e: DeleteErrs) {
    var n := a.Namer();
    && C.PurgedAll(s.backendServices, s'.backendServices, B.PortNames(n, ports), |ports|,
                   B.Busy(a.strict, s.backendServices, s'.urlMaps), e.be, a.reliable)
    && C.PurgedAll(s.healthChecks, s'.healthChecks, H.PortNames(n, ports), |ports|,
                   H.Busy(a.strict, s.healthChecks, s'.backendServices), e.hc, a.reliable)
  }

  /** A delete run; `a.force` is forceDelete. Without a client it stops, or with
      force deletes what needs no client and still reports an error. */
  ghost predicate DeleteRun(a: Args, s: C.Store, s': C.Store, err: Err, ports: seq<ServicePort>, e: DeleteErrs) {
    if a.clients == {} then
      && err != Nil
      && (!a.force ==> s' == s)
      && (a.force ==>
            FrontDeleted(a, s, s', e) && s'.backendServices == s.backendServices && s'.healthChecks == s.healthChecks)
    else
      && (exists c :: c in a.clients && ports == NodePorts(a.w, c, a.ing))
      && FrontDeleted(a, s, s', e)
      && BackDeleted(a, s, s', ports, e)
      && (err == Nil <==> e == DeleteErrs(Nil, Nil, Nil, Nil, Nil, Nil, Nil, Nil))
  }

  // ---------- Remove clusters ----------

  /** All groups of these clusters. */
  ghost function GroupSet(igs: map<string, Groups>): set<string> {
    set c, g | c in igs && g in igs[c] :: g
  }

  lemma {:induction false} FlatGroups(igs: map<string, Groups>, order: seq<string>)
    requires forall c :: c in order ==> c in igs
    ensures forall g :: g in FlatMapped(GroupFn(igs), order) <==> exists c :: c in order && g in GroupFn(igs)(c)
  {
    if order != [] {
      var front, last := order[..|order| - 1], order[|order| - 1];
      FlatGroups(igs, front);
      assert forall c :: c in order <==> c in front || c == last;
    }
  }

  lemma FlatGroupsSet(igs: map<string, Groups>, order: seq<string>)
    requires Enumerates(order, igs.Keys)
    ensures Elements(FlatMapped(GroupFn(igs), order)) == GroupSet(igs)
  {
    FlatGroups(igs, order);
  }

  /** The groups of all these clusters are known, and there are some. */
  predicate GroupsKnown(w: World, clusters: set<string>) {
    clusters != {} && forall c :: c in clusters ==> w.groups(c).Some?
  }

  /** hasSomeRemainingClusters. */
  method HasSomeRemainingClusters(clusters: seq<string>, remove: set<string>) returns (some: bool)
    ensures some <==> Without(clusters, Self, remove) != []
  {
    for i := 0 to |clusters|
      invariant forall j :: 0 <= j < i ==> clusters[j] in remove
    {
      if clusters[i] !in remove {
        assert clusters[i] in Without(clusters, Self, remove);
        return true;
      }
    }
    WithoutEverything(clusters, Self, remove);
    return false;
  }

  /** Where the status of a load balancer can be read. */
  ghost predicate StatusFound(a: Args, s: C.Store, status: LoadBalancerStatus) {
    || U.StatusOf(a.codec, s.urlMaps, a.Namer().Name(UrlMap)) == Some(status)
    || R.StatusOf(a.codec, s.forwardingRules, a.Namer().Name(HttpRule)) == Some(status)
    || R.StatusOf(a.codec, s.forwardingRules, a.Namer().Name(HttpsRule)) == Some(status)
  }

  /** The status a reliable cloud yields: the one on the URL map; if the map
      carries none, the one on the rules; without a map there is none. */
  function StatusLookup(a: Args, s: C.Store): Option<LoadBalancerStatus> {
    var name := a.Namer().Name(UrlMap);
    var stored := U.StatusOf(a.codec, s.urlMaps, name);
    if stored.Some? || name !in s.urlMaps then stored else R.RuleStatus(a.codec, a.Namer(), s.forwardingRules)
  }

  /** What a remove run sees on its way. */
  datatype Removal = Removal(status: LoadBalancerStatus, client: string, ports: seq<ServicePort>, fwErr: Err,
                             beErr: Err, umErr: Err, statusErr: Err)

  /** The part that needs the groups of the clusters to be removed. */
  ghost predicate GroupsRemoved(a: Args, remove: set<string>, s: C.Store, s': C.Store, r: Removal) {
    var igs := GroupsOf(a.w, remove);
    && F.RemovedFrom(a.Namer(), a.w, igs, s.firewalls, s'.firewalls, r.fwErr, a.reliable)
    && B.RemovedFrom(a.Namer(), r.ports, |r.ports|, GroupSet(igs), s.backendServices, s'.backendServices, r.beErr,
                     a.reliable)
  }

  /** The part that updates the status; see RuleAliasing for why no forwarding
      rule changes. */
  ghost predicate StatusUpdated(a: Args, remove: set<string>, s: C.Store, s': C.Store, r: Removal) {
    var n := a.Namer();
    var hasRule := n.Name(HttpRule) in s.forwardingRules || n.Name(HttpsRule) in s.forwardingRules;
    && s'.forwardingRules == s.forwardingRules
    && U.StatusRemoved(a.codec, n.Name(UrlMap), remove, s.urlMaps, s'.urlMaps, r.umErr, a.reliable)
    && (r.statusErr == Nil ==> hasRule && r.umErr == Nil)
    && (a.reliable ==> (r.statusErr == Nil <==> hasRule && n.Name(UrlMap) in s.urlMaps))
  }

  /** A remove run that passed its checks. */
  ghost predicate RemoveWent(a: Args, remove: set<string>, s: C.Store, s': C.Store, err: Err, r: Removal) {
    && StatusFound(a, s, r.status) && (a.reliable ==> StatusLookup(a, s) == Some(r.status))
    && (a.force || Without(r.status.clusters, Self, remove) != [])
    && r.client in a.clients && r.ports == NodePorts(a.w, r.client, a.ing)
    && s' == s.(firewalls := s'.firewalls, backendServices := s'.backendServices, urlMaps := s'.urlMaps)
    && (GroupsKnown(a.w, remove) ==> GroupsRemoved(a, remove, s, s', r))
    && (!GroupsKnown(a.w, remove) ==> a.force && s'.firewalls == s.firewalls && s'.backendServices == s.backendServices)
    && StatusUpdated(a, remove, s, s', r)
    && (err == Nil <==> GroupsKnown(a.w, remove) && r.fwErr == Nil && r.beErr == Nil && r.statusErr == Nil)
  }

  /** A run of RemoveFromClusters: it stops before it writes anything, or it goes
      through all its steps, collecting errors. */
  ghost predicate RemoveRun(a: Args, remove: set<string>, s: C.Store, s': C.Store, err: Err, r: Removal) {
    || RemoveWent(a, remove, s, s', err, r)
    || (err != Nil && s' == s && (a.reliable ==> RemoveStops(a, remove, s)))
  }

  /** Why a run in a reliable cloud would stop: there is no status or no client;
      or, without force, the load balancer would be emptied or the groups of a
      removed cluster are unknown. */
  predicate RemoveStops(a: Args, remove: set<string>, s: C.Store) {
    var status := StatusLookup(a, s);
    || status.None? || a.clients == {}
    || (!a.force && (Without(status.value.clusters, Self, remove) == [] || !GroupsKnown(a.w, remove)))
  }

  class Syncer {
    const lbName: string
    const clients: set<string>
    const cloud: C.Cloud
    const codec: Codec
    const hash: string -> string
    const hcs: H.Syncer
    const bss: B.Syncer
    const ums: U.Syncer
    const tps: T.Syncer
    const frs: R.Syncer
    const fws: F.Syncer
    const scs: S.Syncer

    /** All parts work for the same load balancer on the same cloud. */
    ghost predicate Valid() {
      var namer := MciNamer(lbName);
      && hcs.namer == bss.namer == ums.namer == tps.namer == frs.namer == fws.namer == scs.namer == namer
      && hcs.cloud == bss.cloud == ums.cloud == tps.cloud == frs.cloud == fws.cloud == scs.cloud == cloud
      && ums.codec == frs.codec == codec && ums.hash == hash
    }

    /** NewLoadBalancerSyncer. */
    constructor (lbName: string, clients: set<string>, cloud: C.Cloud, codec: Codec, hash: string -> string)
      ensures Valid()
      ensures this.lbName == lbName && this.clients == clients && this.cloud == cloud && this.codec == codec
      ensures this.hash == hash
    {
      var namer := MciNamer(lbName);
      this.lbName, this.clients, this.cloud, this.codec, this.hash := lbName, clients, cloud, codec, hash;
      hcs := new H.Syncer(namer, cloud);
      bss := new B.Syncer(namer, cloud);
      ums := new U.Syncer(namer, cloud, codec, hash);
      tps := new T.Syncer(namer, cloud);
      frs := new R.Syncer(namer, cloud, codec);
      fws := new F.Syncer(namer, cloud);
      scs := new S.Syncer(namer, cloud);
    }

    ghost function ArgsFor(clusters: seq<string>, ing: Spec, w: World, force: bool): Args {
      Args(lbName, codec, hash, clients, clusters, ing, w, force, cloud.reliable, cloud.strict)
    }

    /** The HTTP part of CreateLoadBalancer. */
    method EnsureHttp(ing: Spec, ip: string, umLink: C.Link, force: bool, ghost a: Args, ghost inp: Inputs,
                      ghost um: UrlMapPart)
      returns (err: Err, ghost http: HttpPart)
      requires Valid() && a == ArgsFor(a.clusters, ing, a.w, force) && inp.ip == ip && um.link == umLink
      modifies cloud`httpProxies, cloud`forwardingRules
      ensures HttpStage(a, old(cloud.httpProxies), cloud.httpProxies, old(cloud.forwardingRules), inp, um, http)
      ensures http.rules == cloud.forwardingRules
      ensures err == Nil <==> http.proxyErr == Nil && http.ruleErr == Nil
    {
      hide T.Outcome, R.Outcome, Namer.Name, T.DesiredHttp, R.DesiredHttp, T.PatchedHttp;
      err := Nil;
      if ing.allowHttp {
        var tpLink, tpErr := tps.EnsureHttpProxy(lbName, umLink, force);
        err := Append(err, tpErr);
        var frErr := frs.EnsureHttpRule(lbName, ip, tpLink, force);
        err := Append(err, frErr);
        http := HttpPart(tpErr, frErr, cloud.forwardingRules);
      } else {
        http := HttpPart(Nil, Nil, cloud.forwardingRules);
      }
    }

    /** The HTTPS part of CreateLoadBalancer. The certificate is loaded from the
        cluster whose client was picked. */
    method EnsureHttps(ing: Spec, w: World, client: string, ip: string, umLink: C.Link, force: bool,
                       ghost a: Args, ghost inp: Inputs, ghost um: UrlMapPart, ghost http: HttpPart)
      returns (err: Err, ghost https: HttpsPart)
      requires Valid() && a == ArgsFor(a.clusters, ing, w, force) && inp.ip == ip && inp.client == client
      requires um.link == umLink
      requires http.rules == cloud.forwardingRules
      modifies cloud`sslCertificates, cloud`httpsProxies, cloud`forwardingRules
      ensures HttpsStage(a, old(cloud.sslCertificates), cloud.sslCertificates, old(cloud.httpsProxies),
                         cloud.httpsProxies, cloud.forwardingRules,
                         inp, um, http, https)
      ensures err == Nil <==> https.certErr == Nil && https.proxyErr == Nil && https.ruleErr == Nil
    {
      hide T.Outcome, R.Outcome, S.Outcome, C.SslCertificateInUse, Namer.Name, T.DesiredHttps, R.DesiredHttps,
         T.PatchedHttps, S.Desired;
      err := Nil;
      if ing.preSharedCert != "" || ing.hasTls {
        var certLink, certErr := scs.EnsureSslCert(lbName, ing, w.tlsSecret(client), force);
        err := Append(err, certErr);
        var tpsLink, tpsErr := tps.EnsureHttpsProxy(lbName, umLink, certLink, force);
        err := Append(err, tpsErr);
        var frsErr := frs.EnsureHttpsRule(lbName, ip, tpsLink, force);
        err := Append(err, frsErr);
        https := HttpsPart(certLink, certErr, tpsErr, frsErr);
      } else {
        https := HttpsPart(C.NoLink, Nil, Nil, Nil);
      }
    }

    /** The first half of CreateLoadBalancer: health checks, then the groups and
        named ports that backend services need. */
    method EnsureHealth(ing: Spec, w: World, client: string, ports: seq<ServicePort>, force: bool, ghost a: Args,
                        ghost inp: Inputs)
      returns (healthChecks: map<Port, C.Link>, igs: map<string, Groups>, namedPorts: map<Port, string>, err: Err,
               ghost hc: HealthPart, ghost ig: GroupPart)
      requires Valid() && a == ArgsFor(a.clusters, ing, w, force) && inp.ports == ports && inp.client == client
      modifies cloud`healthChecks
      ensures HealthStage(a, old(cloud.healthChecks), cloud.healthChecks, inp, hc) && hc.hcs == healthChecks
      ensures GroupStage(a, ig) && ig.igs == igs && ig.namedPorts == namedPorts
      ensures igs != map[] && namedPorts != map[] ==> (err == Nil <==> hc.err == Nil && ig.err == Nil)
    {
      hide H.Progress, GroupsOf, Namer.Name;
      err := Nil;
      var hcErr;
      ghost var hcWants, hcOk;
      healthChecks, hcErr, hcWants, hcOk := hcs.EnsureHealthCheck(lbName, ports, w, clients, force);
      err := Append(err, hcErr);
      var igErr, portsErr;
      igs, igErr := GetIGs(w, clients);
      err := Append(err, igErr);
      namedPorts, portsErr := GetNamedPorts(w, igs);
      err := Append(err, portsErr);
      hc := HealthPart(healthChecks, hcErr, hcWants, hcOk);
      ig := GroupPart(igs, igErr, namedPorts);
    }

    /** The second half of CreateLoadBalancer: everything that refers to the
        health checks, ending with the firewall rule. */
    method EnsureServing(ing: Spec, w: World, client: string, ports: seq<ServicePort>, ip: string,
                         healthChecks: map<Port, C.Link>,
                         igs: map<string, Groups>, namedPorts: map<Port, string>, force: bool, clusters: seq<string>,
                         ghost a: Args, ghost inp: Inputs, ghost hc: HealthPart, ghost ig: GroupPart)
      returns (err: Err, ghost be: BackendPart, ghost um: UrlMapPart, ghost http: HttpPart, ghost https: HttpsPart,
               ghost fw: FirewallPart)
      requires Valid() && a == ArgsFor(clusters, ing, w, force) && inp == Inputs(client, ports, ip)
      requires hc.hcs == healthChecks && ig.igs == igs && ig.namedPorts == namedPorts && igs != map[]
      modifies cloud`backendServices, cloud`urlMaps, cloud`httpProxies, cloud`forwardingRules, cloud`sslCertificates,
               cloud`httpsProxies, cloud`firewalls
      ensures BackendStage(a, old(cloud.backendServices), cloud.backendServices, inp, hc, ig, be)
      ensures UrlMapStage(a, old(cloud.urlMaps), cloud.urlMaps, inp, be, um)
      ensures HttpStage(a, old(cloud.httpProxies), cloud.httpProxies, old(cloud.forwardingRules), inp, um, http)
      ensures HttpsStage(a, old(cloud.sslCertificates), cloud.sslCertificates, old(cloud.httpsProxies),
                         cloud.httpsProxies,
                         cloud.forwardingRules, inp, um, http, https)
      ensures FirewallStage(a, old(cloud.firewalls), cloud.firewalls, inp, ig, fw)
      ensures err == Nil <==>
                && be.err == Nil && um.err == Nil && http.proxyErr == Nil && http.ruleErr == Nil
                && https.certErr == Nil && https.proxyErr == Nil && https.ruleErr == Nil && fw.err == Nil
    {
      hide HttpStage, HttpsStage, B.Progress, U.Outcome, F.Outcome, FlatMapped, Enumerates, Namer.Name;
      err := Nil;
      var groups, order := FlattenGroups(igs);
      var services, beErr, beWants, beOk :=
          bss.EnsureBackendService(lbName, ports, healthChecks, namedPorts, groups, force);
      err := Append(err, beErr);
      be := BackendPart(order, groups, services, beErr, beWants, beOk);
      var umLink, umErr, umWant := ums.EnsureUrlMap(lbName, ip, clusters, ing, services, force);
      err := Append(err, umErr);
      um := UrlMapPart(umLink, umErr, umWant);
      var httpErr, httpsErr;
      httpErr, http := EnsureHttp(ing, ip, umLink, force, a, inp, um);
      err := Append(err, httpErr);
      httpsErr, https := EnsureHttps(ing, w, client, ip, umLink, force, a, inp, um, http);
      err := Append(err, httpsErr);
      var fwErr, fwWant := fws.EnsureFirewallRule(lbName, ports, igs, w, force);
      err := Append(err, fwErr);
      fw := FirewallPart(fwErr, fwWant);
    }

    /** CreateLoadBalancer: ensures every resource in the order of reference,
        collecting errors, and gives up only where nothing more can be done. */
    method CreateLoadBalancer(ing: Spec, w: World, force: bool, clusters: seq<string>) returns (err: Err,
        ghost run: Run)
      requires Valid()
      modifies cloud
      ensures CreateRun(ArgsFor(clusters, ing, w, force), old(cloud.Snapshot()), cloud.Snapshot(), err, run)
    {
      hide HealthStage, GroupStage, BackendStage, UrlMapStage, HttpStage, HttpsStage, FirewallStage, NodePorts,
         AddressOf;
      ghost var a := ArgsFor(clusters, ing, w, force);
      run := *;
      if clients == {} {
        return Other, run;
      }
      var client :| client in clients;
      var ports := IngToNodePorts(w, client, ing);
      var address := AddressOf(w, ing);
      if address.None? {
        return Other, run;
      }
      ghost var inp := Inputs(client, ports, address.value);
      var healthChecks, igs, namedPorts, hcErr, hc, ig := EnsureHealth(ing, w, client, ports, force, a, inp);
      if igs == map[] || namedPorts == map[] {
        run := Run(inp, hc, ig, run.be, run.um, run.http, run.https, run.fw);
        return Append(hcErr, Other), run;
      }
      err := hcErr;
      var restErr, be, um, http, https, fw :=
        EnsureServing(ing, w, client, ports, address.value, healthChecks, igs, namedPorts, force, clusters, a, inp, hc,
                      ig);
      err := Append(err, restErr);
      run := Run(inp, hc, ig, be, um, http, https, fw);
    }

    method DeleteFront(ghost a: Args) returns (err: Err, ghost e: DeleteErrs)
      requires Valid() && a == ArgsFor(a.clusters, a.ing, a.w, a.force)
      modifies cloud`firewalls, cloud`forwardingRules, cloud`httpProxies, cloud`httpsProxies, cloud`sslCertificates,
               cloud`urlMaps
      ensures FrontDeleted(a, old(cloud.Snapshot()), cloud.Snapshot(), e)
      ensures e.be == Nil && e.hc == Nil
      ensures err == Nil <==> e == DeleteErrs(Nil, Nil, Nil, Nil, Nil, Nil, Nil, Nil)
    {
      hide C.Purged, R.RulesPurged, C.ProxyInUse, C.SslCertificateInUse, C.UrlMapInUse, Namer.Name;
      err := Nil;
      var fwErr := fws.DeleteFirewallRules();
      err := Append(err, fwErr);
      var frErr := frs.DeleteForwardingRules();
      err := Append(err, frErr);
      var tpErr, httpErr, httpsErr := tps.DeleteTargetProxies();
      err := Append(err, tpErr);
      var scErr := scs.DeleteSslCert();
      err := Append(err, scErr);
      var umErr := ums.DeleteUrlMap();
      err := Append(err, umErr);
      e := DeleteErrs(fwErr, frErr, httpErr, httpsErr, scErr, umErr, Nil, Nil);
    }

    /** DeleteLoadBalancer: deletes in the reverse order of creation, going on
        after errors. */
    method DeleteLoadBalancer(ing: Spec, w: World, forceDelete: bool)
      returns (err: Err, ghost ports: seq<ServicePort>, ghost errs: DeleteErrs)
      requires Valid()
      modifies cloud
      ensures DeleteRun(ArgsFor([], ing, w, forceDelete), old(cloud.Snapshot()), cloud.Snapshot(), err, ports, errs)
    {
      hide FrontDeleted, C.PurgedAll, NodePorts, B.PortNames, H.PortNames, B.Busy, H.Busy;
      ghost var a := ArgsFor([], ing, w, forceDelete);
      err, ports, errs := Nil, [], DeleteErrs(Nil, Nil, Nil, Nil, Nil, Nil, Nil, Nil);
      if clients == {} {
        if !forceDelete {
          return Other, ports, errs;
        }
        err := Append(err, Other);
      }
      ghost var s := cloud.Snapshot();
      var frontErr, front := DeleteFront(a);
      err := Append(err, frontErr);
      ghost var s1 := cloud.Snapshot();
      errs := front;
      if clients != {} {
        var client :| client in clients;
        var nodePorts := IngToNodePorts(w, client, ing);
        ports := nodePorts;
        var beErr := bss.DeleteBackendServices(nodePorts);
        err := Append(err, beErr);
        var hcErr := hcs.DeleteHealthChecks(nodePorts);
        err := Append(err, hcErr);
        errs := front.(be := beErr, hc := hcErr);
      }
      SameFront(a, s, s1, cloud.Snapshot(), front, errs);
    }

    /** getLoadBalancerStatus: from the URL map or else from a forwarding rule. */
    method GetLoadBalancerStatus(ghost a: Args) returns (status: Option<LoadBalancerStatus>, err: Err)
      requires Valid() && a == ArgsFor(a.clusters, a.ing, a.w, a.force)
      ensures err == Nil <==> status.Some?
      ensures status.Some? ==> StatusFound(a, cloud.Snapshot(), status.value)
      ensures cloud.reliable ==> status == StatusLookup(a, cloud.Snapshot())
      ensures var um := MciNamer(lbName).Name(UrlMap);
              cloud.reliable ==>
                && (um !in cloud.urlMaps ==> status.None?)
                && (um in cloud.urlMaps && codec.fromStr(cloud.urlMaps[um].spec.description).Some? ==>
                      status == codec.fromStr(cloud.urlMaps[um].spec.description))
    {
      hide Namer.Name;
      var umErr, frErr;
      status, umErr := ums.GetLoadBalancerStatus();
      if umErr == Nil {
        return status, Nil;
      }
      if umErr == NotFound {
        return None, Other;
      }
      status, frErr := frs.GetLoadBalancerStatus();
      return status, if frErr == Nil then Nil else Other;
    }

    /** removeClustersFromStatus: on the forwarding rules and on the URL map. */
    method RemoveClustersFromStatus(clusters: seq<string>, ghost a: Args, ghost remove: set<string>, ghost r0: Removal)
      returns (err: Err, ghost r: Removal)
      requires Valid() && a == ArgsFor(a.clusters, a.ing, a.w, a.force) && Elements(clusters) == remove
      modifies cloud`forwardingRules, cloud`urlMaps
      ensures StatusUpdated(a, remove, old(cloud.Snapshot()), cloud.Snapshot(), r)
      ensures r == r0.(umErr := r.umErr, statusErr := r.statusErr) && err == r.statusErr
    {
      hide Namer.Name, U.StatusRemoved;
      var frErr := frs.RemoveClustersFromStatus(clusters);
      ghost var before := cloud.urlMaps;
      var umErr := ums.RemoveClustersFromStatus(clusters);
      UrlMapErrors(codec, a.Namer().Name(UrlMap), remove, before, cloud.urlMaps, umErr, cloud.reliable);
      if frErr == NotFound || umErr == NotFound {
        err := Other;
      } else if frErr == Nil {
        err := umErr;
      } else if umErr == Nil {
        err := frErr;
      } else {
        err := Other;
      }
      r := r0.(umErr := umErr, statusErr := err);
    }

    /** The firewall rule and the backend services lose the removed clusters. */
    method RemoveGroups(ports: seq<ServicePort>, igs: map<string, Groups>, w: World, ghost a: Args,
                        ghost remove: set<string>, ghost r0: Removal)
      returns (err: Err, ghost r: Removal)
      requires Valid() && a == ArgsFor(a.clusters, a.ing, w, a.force) && igs == GroupsOf(w, remove) && r0.ports == ports
      modifies cloud`firewalls, cloud`backendServices
      ensures GroupsRemoved(a, remove, old(cloud.Snapshot()), cloud.Snapshot(), r)
      ensures r == r0.(fwErr := r.fwErr, beErr := r.beErr)
      ensures err == Nil <==> r.fwErr == Nil && r.beErr == Nil
    {
      hide F.RemovedFrom, B.RemovedFrom, GroupSet, GroupsOf, FlatMapped;
      err := Nil;
      var fwErr := fws.RemoveFromClusters(igs, w);
      err := Append(err, fwErr);
      var groups, order := FlattenGroups(igs);
      var beErr := bss.RemoveFromClusters(ports, groups);
      err := Append(err, beErr);
      r := r0.(fwErr := fwErr, beErr := beErr);
    }

    /** RemoveFromClusters. Without force it refuses to empty the load balancer,
        and stops if the groups of a removed cluster cannot be found. */
    method RemoveFromClusters(ing: Spec, w: World, remove: set<string>, force: bool) returns (err: Err,
        ghost r: Removal)
      requires Valid()
      modifies cloud
      ensures RemoveRun(ArgsFor([], ing, w, force), remove, old(cloud.Snapshot()), cloud.Snapshot(), err, r)
    {
      hide StatusFound, StatusLookup, GroupsRemoved, StatusUpdated, NodePorts, Without, GroupsOf;
      ghost var a := ArgsFor([], ing, w, force);
      r := *;
      var status, statusErr := GetLoadBalancerStatus(a);
      if statusErr != Nil {
        return Other, r;
      }
      var some := HasSomeRemainingClusters(status.value.clusters, remove);
      if !some && !force {
        return Other, r;
      }
      if clients == {} {
        return Other, r;
      }
      var client :| client in clients;
      err := Nil;
      var ports := IngToNodePorts(w, client, ing);
      var igs, igErr := GetIGs(w, remove);
      if igErr == Nil {
        NoGroups(w, remove);
      }
      if igErr == Nil && igs == map[] {
        igErr := Other;
      }
      if igErr != Nil {
        if !force {
          return igErr, r;
        }
        err := Append(err, igErr);
      }
      r := Removal(status.value, client, ports, Nil, Nil, Nil, Nil);
      ghost var s := cloud.Snapshot();
      if igErr == Nil {
        var groupsErr;
        groupsErr, r := RemoveGroups(ports, igs, w, a, remove, r);
        err := Append(err, groupsErr);
      }
      ghost var s1, r1 := cloud.Snapshot(), r;
      var clustersToRemove := RangeOrder(remove);
      assert Elements(clustersToRemove) == remove;
      var updateErr;
      updateErr, r := RemoveClustersFromStatus(clustersToRemove, a, remove, r);
      err := Append(err, updateErr);
      SameParts(a, remove, s, s1, cloud.Snapshot(), r1, r);
    }
  }

  lemma NoGroups(w: World, clusters: set<string>)
    requires forall c :: c in clusters ==> w.groups(c).Some?
    ensures GroupsOf(w, clusters) == map[] <==> clusters == {}
  {
    if clusters != {} {
      var c :| c in clusters;
      assert c in GroupsOf(w, clusters);
    }
  }

  lemma UrlMapErrors(codec: Codec, name: string, drop: set<string>, t: C.Table<C.UrlMap>, t': C.Table<C.UrlMap>,
                     err: Err, reliable: bool)
    requires U.StatusRemoved(codec, name, drop, t, t', err, reliable)
    ensures err == NotFound ==> name !in t
    ensures err == Nil ==> name in t
    ensures reliable ==> err == if name in t then Nil else NotFound
  {
  }

  lemma SameParts(a: Args, remove: set<string>, s: C.Store, s1: C.Store, s2: C.Store, r1: Removal, r: Removal)
    requires r == r1.(umErr := r.umErr, statusErr := r.statusErr)
    requires s1 == s.(firewalls := s1.firewalls, backendServices := s1.backendServices)
    requires s2 == s1.(forwardingRules := s2.forwardingRules, urlMaps := s2.urlMaps)
    requires StatusUpdated(a, remove, s1, s2, r)
    ensures StatusUpdated(a, remove, s, s2, r) && s2.forwardingRules == s.forwardingRules
    ensures GroupsRemoved(a, remove, s, s1, r1) ==> GroupsRemoved(a, remove, s, s2, r)
  {
    hide F.RemovedFrom, B.RemovedFrom, U.StatusRemoved, GroupsOf, GroupSet, Namer.Name;
  }

  lemma SameFront(a: Args, s: C.Store, s1: C.Store, s2: C.Store, e: DeleteErrs, e': DeleteErrs)
    requires FrontDeleted(a, s, s1, e)
    requires s2 == s1.(backendServices := s2.backendServices, healthChecks := s2.healthChecks)
    requires e' == e.(be := e'.be, hc := e'.hc)
    ensures FrontDeleted(a, s, s2, e')
  {
  }
}
