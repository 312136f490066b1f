/** What removing clusters does: it never empties a load balancer unasked, and
    removals add up. */
module RemoveRuns {
  import opened Prelude
  import opened Names
  import opened Ingress
  import opened Sorting
  import opened Status
  import opened LoadBalancer
  import opened Chains
  import C = Cloud
  import B = BackendServices
  import U = UrlMaps
  import R = ForwardingRules
  import F = FirewallRules

  // ---------- Never empties a load balancer ----------

  /** The status a URL map carries. */
  function StoredStatus(a: Args, s: C.Store): Option<LoadBalancerStatus> {
    U.StatusOf(a.codec, s.urlMaps, a.Namer().Name(UrlMap))
  }

  /** No forwarding rule of this load balancer carries a status. */
  predicate StatusOnUrlMapOnly(a: Args, s: C.Store) {
    && R.StatusOf(a.codec, s.forwardingRules, a.Namer().Name(HttpRule)).None?
    && R.StatusOf(a.codec, s.forwardingRules, a.Namer().Name(HttpsRule)).None?
  }

  predicate ListsSomeCluster(status: Option<LoadBalancerStatus>) {
    status.Some? && status.value.clusters != []
  }

  /** Without force, a run that passes the guard leaves a status that lists a
      cluster, also if the run fails later; and no run takes the last cluster. */
  lemma UnforcedRemoveNeverEmpties(a: Args, remove: set<string>, s: C.Store, s': C.Store, err: Err, r: Removal)
    requires RemoveRun(a, remove, s, s', err, r) && !a.force
    requires Lawful(a.codec) && (StatusOnUrlMapOnly(a, s) || (a.reliable && StoredStatus(a, s).Some?))
    ensures RemoveWent(a, remove, s, s', err, r) ==> ListsSomeCluster(StoredStatus(a, s'))
    ensures ListsSomeCluster(StoredStatus(a, s)) ==> ListsSomeCluster(StoredStatus(a, s'))
    ensures StatusOnUrlMapOnly(a, s) ==> StatusOnUrlMapOnly(a, s')
  {
    hide NodePorts, GroupsKnown, GroupsRemoved, Namer.Name, RemoveStops;
    if RemoveWent(a, remove, s, s', err, r) {
      assert StoredStatus(a, s) == Some(r.status);
    }
  }

  /** With the status on the URL map the guard of a reliable run lets through
      exactly those removals whose later filter leaves a cluster. */
  lemma GuardIsTheFilter(a: Args, remove: set<string>, s: C.Store, s': C.Store, err: Err, r: Removal)
    requires RemoveRun(a, remove, s, s', err, r) && !a.force && a.reliable
    requires Lawful(a.codec) && StoredStatus(a, s).Some? && a.clients != {} && GroupsKnown(a.w, remove)
    ensures RemoveWent(a, remove, s, s', err, r) <==> Without(StoredStatus(a, s).value.clusters, Self, remove) != []
    ensures RemoveWent(a, remove, s, s', err, r) ==>
              StoredStatus(a, s') == Some(r.status.(clusters := Without(r.status.clusters, Self, remove)))
  {
    hide NodePorts, GroupsRemoved, Namer.Name;
    if RemoveWent(a, remove, s, s', err, r) {
      assert StoredStatus(a, s) == Some(r.status);
    }
  }

  // ---------- Removals add up ----------

  /** The tables hold the same records, up to output-only fields. */
  ghost predicate SameContents<V>(t: C.Table<V>, t': C.Table<V>) {
    t.Keys == t'.Keys && forall k :: k in t ==> t[k].spec == t'[k].spec
  }

  ghost predicate SameStore(s: C.Store, s': C.Store) {
    && s'.healthChecks == s.healthChecks && s'.httpProxies == s.httpProxies && s'.httpsProxies == s.httpsProxies
    && s'.sslCertificates == s.sslCertificates && s'.forwardingRules == s.forwardingRules
    && SameContents(s.backendServices, s'.backendServices)
    && SameContents(s.urlMaps, s'.urlMaps)
    && SameContents(s.firewalls, s'.firewalls)
  }

  function Change<V>(t: C.Table<V>, name: string, f: V -> V): C.Table<V> {
    if name in t then t[name := t[name].(spec := f(t[name].spec))] else t
  }

  ghost function TagsOf(w: World, remove: set<string>): set<string> {
    F.TagSet(w, GroupsOf(w, remove))
  }

  ghost function LinksOf(w: World, remove: set<string>): set<string> {
    GroupSet(GroupsOf(w, remove))
  }

  /** The backend services of these ports without these groups. */
  ghost function ServicesWithout(t: C.Table<C.BackendService>, names: set<string>,
                                 drop: set<string>): C.Table<C.BackendService> {
    map k | k in t :: if k in names then t[k].(spec := B.WithoutGroups(t[k].spec, drop)) else t[k]
  }

  /** The store as a removal should leave it. */
  ghost function AfterRemoval(a: Args, remove: set<string>, ports: seq<ServicePort>, s: C.Store): C.Store {
    s.(firewalls := Change(s.firewalls, a.Namer().Name(Firewall), fw => F.WithoutTags(fw, TagsOf(a.w, remove))),
       backendServices := ServicesWithout(s.backendServices, B.NameSet(a.Namer(), ports), LinksOf(a.w, remove)),
       urlMaps := Change(s.urlMaps, a.Namer().Name(UrlMap), um => U.WithoutClusters(a.codec, um, remove)))
  }

  lemma ServicesAfter(n: Namer, ports: seq<ServicePort>, drop: set<string>, t: C.Table<C.BackendService>,
                      t': C.Table<C.BackendService>, reliable: bool)
    requires B.RemovedFrom(n, ports, |ports|, drop, t, t', Nil, reliable)
    ensures SameContents(ServicesWithout(t, B.NameSet(n, ports), drop), t')
  {
    hide B.WithoutGroups, Namer.Name;
    forall k | k in t ensures ServicesWithout(t, B.NameSet(n, ports), drop)[k].spec == t'[k].spec {
      if k in B.NameSet(n, ports) {
        var i :| 0 <= i < |ports| && B.PortNames(n, ports)[i] == k;
        assert B.LostGroups(t, t', k, drop);
      }
    }
  }

  /** A removal without error leaves exactly that store. */
  lemma NilRemoveIsComplete(a: Args, remove: set<string>, s: C.Store, s': C.Store, r: Removal)
    requires RemoveRun(a, remove, s, s', Nil, r)
    ensures SameStore(AfterRemoval(a, remove, r.ports, s), s')
  {
    hide NodePorts, B.RemovedFrom, StatusFound, F.WithoutTags, U.WithoutClusters, Namer.Name, ServicesWithout, F.TagSet,
         GroupSet, GroupsOf;
    ServicesAfter(a.Namer(), r.ports, LinksOf(a.w, remove), s.backendServices, s'.backendServices, a.reliable);
  }

  lemma TagsAdd(w: World, x: set<string>, y: set<string>)
    ensures TagsOf(w, x + y) == TagsOf(w, x) + TagsOf(w, y)
  {
  }

  lemma LinksAdd(w: World, x: set<string>, y: set<string>)
    ensures LinksOf(w, x + y) == LinksOf(w, x) + LinksOf(w, y)
  {
    forall g | g in LinksOf(w, x + y) ensures g in LinksOf(w, x) + LinksOf(w, y) {
      var c :| c in GroupsOf(w, x + y) && g in GroupsOf(w, x + y)[c];
      assert c in x ==> c in GroupsOf(w, x);
      assert c in y ==> c in GroupsOf(w, y);
    }
    forall g | g in LinksOf(w, x) + LinksOf(w, y) ensures g in LinksOf(w, x + y) {
      var c :| (c in GroupsOf(w, x) && g in GroupsOf(w, x)[c]) || (c in GroupsOf(w, y) && g in GroupsOf(w, y)[c]);
      assert c in GroupsOf(w, x + y);
    }
  }

  lemma ServicesTwice(t: C.Table<C.BackendService>, names: set<string>, x: set<string>, y: set<string>)
    ensures ServicesWithout(ServicesWithout(t, names, x), names, y) == ServicesWithout(t, names, x + y)
  {
    hide B.WithoutGroups;
    forall k | k in t ensures B.WithoutGroups(B.WithoutGroups(t[k].spec, x), y) == B.WithoutGroups(t[k].spec, x + y) {
      B.WithoutGroupsTwice(t[k].spec, x, y);
    }
  }

  lemma WithoutClustersTwice(codec: Codec, um: C.UrlMap, x: set<string>, y: set<string>)
    requires Lawful(codec)
    ensures U.WithoutClusters(codec, U.WithoutClusters(codec, um, x), y) == U.WithoutClusters(codec, um, x + y)
  {
    StatusWithoutTwice(codec, um.description, x, y);
  }

  /** Removing A and then B is removing A and B at once, for backend groups,
      firewall tags and status alike. */
  lemma RemovalsAddUp(a: Args, x: set<string>, y: set<string>, ports: seq<ServicePort>, s: C.Store)
    requires Lawful(a.codec)
    ensures AfterRemoval(a, y, ports, AfterRemoval(a, x, ports, s)) == AfterRemoval(a, x + y, ports, s)
  {
    hide F.WithoutTags, U.WithoutClusters, Namer.Name, ServicesWithout, Lawful, TagsOf, LinksOf, Change;
    var n := a.Namer();
    TagsAdd(a.w, x, y);
    LinksAdd(a.w, x, y);
    ServicesTwice(s.backendServices, B.NameSet(n, ports), LinksOf(a.w, x), LinksOf(a.w, y));
    FirewallTwice(s.firewalls, n.Name(Firewall), TagsOf(a.w, x), TagsOf(a.w, y));
    UrlMapTwice(a.codec, s.urlMaps, n.Name(UrlMap), x, y);
  }

  lemma FirewallTwice(t: C.Table<C.Firewall>, name: string, x: set<string>, y: set<string>)
    ensures Change(Change(t, name, fw => F.WithoutTags(fw, x)), name, fw => F.WithoutTags(fw, y)) ==
            Change(t, name, fw => F.WithoutTags(fw, x + y))
  {
    hide F.WithoutTags;
    if name in t {
      F.WithoutTagsTwice(t[name].spec, x, y);
    }
  }

  lemma UrlMapTwice(codec: Codec, t: C.Table<C.UrlMap>, name: string, x: set<string>, y: set<string>)
    requires Lawful(codec)
    ensures Change(Change(t, name, um => U.WithoutClusters(codec, um, x)), name,
                   um => U.WithoutClusters(codec, um, y)) ==
            Change(t, name, um => U.WithoutClusters(codec, um, x + y))
  {
    hide U.WithoutClusters;
    if name in t {
      WithoutClustersTwice(codec, t[name].spec, x, y);
    }
  }

  /** The order of two removals does not matter. */
  lemma RemovalsCommute(a: Args, x: set<string>, y: set<string>, ports: seq<ServicePort>, s: C.Store)
    requires Lawful(a.codec)
    ensures AfterRemoval(a, y, ports, AfterRemoval(a, x, ports, s)) ==
            AfterRemoval(a, x, ports, AfterRemoval(a, y, ports, s))
  {
    RemovalsAddUp(a, x, y, ports, s);
    RemovalsAddUp(a, y, x, ports, s);
    assert x + y == y + x;
  }

  lemma SameInSameOut(a: Args, remove: set<string>, ports: seq<ServicePort>, s: C.Store, t: C.Store)
    requires SameStore(s, t)
    ensures SameStore(AfterRemoval(a, remove, ports, s), AfterRemoval(a, remove, ports, t))
  {
    hide F.WithoutTags, U.WithoutClusters, Namer.Name, B.WithoutGroups, TagsOf, LinksOf, B.NameSet;
  }

  lemma SameTrans(s: C.Store, t: C.Store, u: C.Store)
    requires SameStore(s, t) && SameStore(t, u)
    ensures SameStore(s, u)
  {
  }

  /** The commands are for one load balancer and see the same world; they may
      differ in everything else, such as the clients and the force flag. */
  ghost predicate SameTarget(a: Args, b: Args) {
    b.lbName == a.lbName && b.codec == a.codec && b.w == a.w
  }

  lemma SameTargetSameRemoval(a: Args, b: Args, remove: set<string>, ports: seq<ServicePort>, s: C.Store)
    requires SameTarget(a, b)
    ensures AfterRemoval(a, remove, ports, s) == AfterRemoval(b, remove, ports, s)
  {
  }

  /** Two successful runs leave what one run with all the clusters would. */
  lemma TwoRunsAreOne(a: Args, b: Args, x: set<string>, y: set<string>, s: C.Store, s1: C.Store, s2: C.Store,
                      r1: Removal, r2: Removal)
    requires Lawful(a.codec) && SameTarget(a, b)
    requires RemoveRun(a, x, s, s1, Nil, r1) && RemoveRun(b, y, s1, s2, Nil, r2) && r1.ports == r2.ports
    ensures SameStore(AfterRemoval(a, x + y, r1.ports, s), s2)
  {
    hide RemoveRun, AfterRemoval, SameStore, Lawful;
    NilRemoveIsComplete(a, x, s, s1, r1);
    NilRemoveIsComplete(b, y, s1, s2, r2);
    SameTargetSameRemoval(a, b, y, r1.ports, s1);
    SameInSameOut(a, y, r1.ports, AfterRemoval(a, x, r1.ports, s), s1);
    RemovalsAddUp(a, x, y, r1.ports, s);
    SameTrans(AfterRemoval(a, x + y, r1.ports, s), AfterRemoval(a, y, r1.ports, s1), s2);
  }

  // ---------- A failed removal can be repeated ----------

  lemma ServicesRetried(n: Namer, ports: seq<ServicePort>, drop: set<string>, t: C.Table<C.BackendService>,
                        t': C.Table<C.BackendService>, err: Err, reliable: bool)
    requires B.RemovedFrom(n, ports, |ports|, drop, t, t', err, reliable)
    ensures SameContents(ServicesWithout(t, B.NameSet(n, ports), drop), ServicesWithout(t', B.NameSet(n, ports), drop))
  {
    hide B.WithoutGroups, Namer.Name;
    forall k | k in t
      ensures ServicesWithout(t, B.NameSet(n, ports), drop)[k].spec ==
              ServicesWithout(t', B.NameSet(n, ports), drop)[k].spec
    {
      B.WithoutGroupsTwice(t[k].spec, drop, drop);
      assert drop + drop == drop;
      if t'[k] != t[k] {
        var i :| 0 <= i < |ports| && k == n.Name(BackendService(ports[i].nodePort));
        assert B.PortNames(n, ports)[i] == k;
      }
    }
  }

  lemma ChangeRetried<V>(t: C.Table<V>, t': C.Table<V>, name: string, f: V -> V)
    requires t' == t || (name in t && C.Wrote(t, t', name, f(t[name].spec)))
    requires name in t ==> f(f(t[name].spec)) == f(t[name].spec)
    ensures SameContents(Change(t, name, f), Change(t', name, f))
  {
  }

  lemma FirewallRetried(n: Namer, w: World, remove: set<string>, t: C.Table<C.Firewall>, t': C.Table<C.Firewall>,
                        err: Err, reliable: bool)
    requires F.RemovedFrom(n, w, GroupsOf(w, remove), t, t', err, reliable)
    ensures var f := (fw: C.Firewall) => F.WithoutTags(fw, TagsOf(w, remove));
            SameContents(Change(t, n.Name(Firewall), f), Change(t', n.Name(Firewall), f))
  {
    hide F.WithoutTags, Namer.Name, GroupsOf, F.TagSet;
    var drop := TagsOf(w, remove);
    if n.Name(Firewall) in t {
      F.WithoutTagsTwice(t[n.Name(Firewall)].spec, drop, drop);
      assert drop + drop == drop;
    }
    ChangeRetried(t, t', n.Name(Firewall), (fw: C.Firewall) => F.WithoutTags(fw, drop));
  }

  lemma UrlMapRetried(codec: Codec, name: string, remove: set<string>, t: C.Table<C.UrlMap>, t': C.Table<C.UrlMap>,
                      err: Err, reliable: bool)
    requires U.StatusRemoved(codec, name, remove, t, t', err, reliable) && Lawful(codec)
    ensures var f :=
            (um: C.UrlMap) => U.WithoutClusters(codec, um, remove); SameContents(Change(t, name, f),
                Change(t', name, f))
  {
    hide U.WithoutClusters;
    if name in t {
      WithoutClustersTwice(codec, t[name].spec, remove, remove);
      assert remove + remove == remove;
    }
    ChangeRetried(t, t', name, (um: C.UrlMap) => U.WithoutClusters(codec, um, remove));
  }

  /** Whatever a removal did before it failed is what it should have done: what
      is left to remove leads to the same store. */
  lemma FailedRemovalIsPartial(a: Args, remove: set<string>, s: C.Store, s': C.Store, err: Err, r: Removal)
    requires RemoveRun(a, remove, s, s', err, r) && Lawful(a.codec)
    ensures SameStore(AfterRemoval(a, remove, r.ports, s), AfterRemoval(a, remove, r.ports, s'))
  {
    hide NodePorts, F.RemovedFrom, B.RemovedFrom, U.StatusRemoved, StatusFound, StatusLookup, RemoveStops, Namer.Name,
         GroupsOf, GroupSet, Lawful,
         F.WithoutTags, U.WithoutClusters, ServicesWithout, Change, TagsOf;
    if RemoveWent(a, remove, s, s', err, r) {
      if GroupsKnown(a.w, remove) {
        ServicesRetried(a.Namer(), r.ports, LinksOf(a.w, remove), s.backendServices, s'.backendServices, r.beErr,
                        a.reliable);
        FirewallRetried(a.Namer(), a.w, remove, s.firewalls, s'.firewalls, r.fwErr, a.reliable);
      }
      UrlMapRetried(a.codec, a.Namer().Name(UrlMap), remove, s.urlMaps, s'.urlMaps, r.umErr, a.reliable);
    }
  }

  /** A removal that failed at any point, followed by a successful one of the same
      clusters, forced or not, leaves what one successful removal would have left. */
  lemma RemovalCanBeRetried(a: Args, b: Args, remove: set<string>, s: C.Store, s1: C.Store, s2: C.Store, err: Err,
                            r1: Removal, r2: Removal)
    requires RemoveRun(a, remove, s, s1, err, r1) && RemoveRun(b, remove, s1, s2, Nil, r2)
    requires Lawful(a.codec) && SameTarget(a, b) && r1.ports == r2.ports
    ensures SameStore(AfterRemoval(a, remove, r2.ports, s), s2)
  {
    hide RemoveRun, AfterRemoval, SameStore, Lawful;
    FailedRemovalIsPartial(a, remove, s, s1, err, r1);
    NilRemoveIsComplete(b, remove, s1, s2, r2);
    SameTargetSameRemoval(a, b, remove, r2.ports, s1);
    SameTrans(AfterRemoval(a, remove, r2.ports, s), AfterRemoval(a, remove, r2.ports, s1), s2);
  }

  // ---------- What no removal touches ----------

  /** A firewall rule is as before but for its target tags; an update fills in the
      default priority. */
  predicate OnlyTags(fw: C.Firewall, fw': C.Firewall) {
    && fw' == fw.(targetTags := fw'.targetTags, priority := fw'.priority)
    && (fw'.priority == fw.priority || (fw.priority == 0 && fw'.priority == 1000))
  }

  ghost predicate OnlyLists(s: C.Store, s': C.Store) {
    && s'.healthChecks == s.healthChecks && s'.httpProxies == s.httpProxies && s'.httpsProxies == s.httpsProxies
    && s'.sslCertificates == s.sslCertificates && s'.forwardingRules == s.forwardingRules
    && s'.backendServices.Keys == s.backendServices.Keys
    && s'.urlMaps.Keys == s.urlMaps.Keys && s'.firewalls.Keys == s.firewalls.Keys
    && (forall k :: k in s.backendServices ==>
          s'.backendServices[k].spec == s.backendServices[k].spec.(backends := s'.backendServices[k].spec.backends))
    && (forall k :: k in s.urlMaps ==>
          s'.urlMaps[k].spec == s.urlMaps[k].spec.(description := s'.urlMaps[k].spec.description))
    && (forall k :: k in s.firewalls ==> OnlyTags(s.firewalls[k].spec, s'.firewalls[k].spec))
  }

  lemma OnlyBackends(n: Namer, ports: seq<ServicePort>, drop: set<string>, t: C.Table<C.BackendService>,
                     t': C.Table<C.BackendService>, err: Err, reliable: bool)
    requires B.RemovedFrom(n, ports, |ports|, drop, t, t', err, reliable)
    ensures t'.Keys == t.Keys
    ensures forall k :: k in t ==> t'[k].spec == t[k].spec.(backends := t'[k].spec.backends)
  {
    hide Namer.Name;
  }

  lemma OnlyFirewallTags(n: Namer, w: World, igs: map<string, Groups>, t: C.Table<C.Firewall>, t': C.Table<C.Firewall>,
                         err: Err,
                         reliable: bool)
    requires F.RemovedFrom(n, w, igs, t, t', err, reliable)
    ensures t'.Keys == t.Keys && forall k :: k in t ==> OnlyTags(t[k].spec, t'[k].spec)
  {
    hide Namer.Name, F.TagSet, F.TagsKnown;
  }

  lemma OnlyDescription(codec: Codec, name: string, drop: set<string>, t: C.Table<C.UrlMap>, t': C.Table<C.UrlMap>,
                        err: Err,
                        reliable: bool)
    requires U.StatusRemoved(codec, name, drop, t, t', err, reliable)
    ensures t'.Keys == t.Keys
    ensures forall k :: k in t ==> t'[k].spec == t[k].spec.(description := t'[k].spec.description)
  {
    hide StatusWithout;
  }

  /** Whatever fails, a removal touches nothing but the backends of backend
      services, the target tags of firewall rules (and a missing priority) and the
      descriptions of URL maps. */
  lemma RemovalTouchesOnlyLists(a: Args, remove: set<string>, s: C.Store, s': C.Store, err: Err, r: Removal)
    requires RemoveRun(a, remove, s, s', err, r)
    ensures OnlyLists(s, s')
  {
    hide NodePorts, F.RemovedFrom, B.RemovedFrom, U.StatusRemoved, StatusFound, StatusLookup, RemoveStops, Namer.Name,
         GroupsOf, GroupSet;
    if RemoveWent(a, remove, s, s', err, r) {
      if GroupsKnown(a.w, remove) {
        OnlyBackends(a.Namer(), r.ports, GroupSet(GroupsOf(a.w, remove)), s.backendServices, s'.backendServices,
                     r.beErr, a.reliable);
        OnlyFirewallTags(a.Namer(), a.w, GroupsOf(a.w, remove), s.firewalls, s'.firewalls, r.fwErr, a.reliable);
      }
      OnlyDescription(a.codec, a.Namer().Name(UrlMap), remove, s.urlMaps, s'.urlMaps, r.umErr, a.reliable);
    }
  }

  lemma PortStaysWired(a: Args, s: C.Store, s': C.Store, ports: seq<ServicePort>, p: Port)
    requires OnlyLists(s, s') && PortWired(a, s, ports, p)
    ensures PortWired(a, s', ports, p)
  {
    hide Namer.Name, ChecksPort, NamedBy, ServicePort.Description;
    var name := a.Namer().Name(BackendService(p));
    var i :| 0 <= i < |ports| && ports[i].nodePort == p && ServesPort(a, s.backendServices[name].spec, ports[i]);
    assert ServesPort(a, s'.backendServices[name].spec, ports[i]);
    assert CheckStored(a, s', ports, p);
  }

  lemma FirewallStaysWired(a: Args, s0: C.Store, s: C.Store, s': C.Store, ports: seq<ServicePort>)
    requires OnlyLists(s, s') && FirewallWired(a, s0, s, ports)
    ensures FirewallWired(a, s0, s', ports)
  {
    hide Namer.Name, ListsNodePorts, NetworkOfSome;
  }

  lemma UrlMapStaysWired(a: Args, s: C.Store, s': C.Store, ports: seq<ServicePort>)
    requires OnlyLists(s, s') && UrlMapWired(a, s, ports)
    ensures UrlMapWired(a, s', ports)
  {
    hide Namer.Name;
    var um := a.Namer().Name(UrlMap);
    forall link ensures C.RefersToService(s'.urlMaps[um].spec, link) <==> C.RefersToService(s.urlMaps[um].spec, link) {
      DescriptionRoutesNothing(s.urlMaps[um].spec, s'.urlMaps[um].spec.description, link);
    }
    hide C.RefersToService;
  }

  lemma DescriptionRoutesNothing(um: C.UrlMap, description: string, link: C.Link)
    ensures C.RefersToService(um.(description := description), link) <==> C.RefersToService(um, link)
  {
  }

  /** So the chain that a create made stays wired: checks and services keep their
      port, path and port name, the URL map its routes, the rules their address,
      the firewall rule its ports and network. */
  lemma RemovalKeepsWiring(a: Args, inp: Inputs, s0: C.Store, b: Args, remove: set<string>, s: C.Store, s': C.Store,
                           err: Err,
                           r: Removal)
    requires Wired(a, s0, s, inp) && RemoveRun(b, remove, s, s', err, r)
    ensures Wired(a, s0, s', inp)
  {
    hide RemoveRun, PortWired, UrlMapWired, FirewallWired, HttpServed, HttpsServed, CertStored, Namer.Name, OnlyLists;
    RemovalTouchesOnlyLists(b, remove, s, s', err, r);
    forall i | 0 <= i < |inp.ports| ensures PortWired(a, s', inp.ports, inp.ports[i].nodePort) {
      PortStaysWired(a, s, s', inp.ports, inp.ports[i].nodePort);
    }
    UrlMapStaysWired(a, s, s', inp.ports);
    FirewallStaysWired(a, s0, s, s', inp.ports);
    HttpStays(a, s0, s, s', inp.ip);
    HttpsStays(a, s0, s, s', inp.ip);
    CertStays(a, s0, s, s', inp.client);
  }

  lemma HttpStays(a: Args, s0: C.Store, s: C.Store, s': C.Store, ip: string)
    requires OnlyLists(s, s')
    ensures HttpServed(a, s0, s, ip) ==> HttpServed(a, s0, s', ip)
  {
    hide Namer.Name;
  }

  lemma HttpsStays(a: Args, s0: C.Store, s: C.Store, s': C.Store, ip: string)
    requires OnlyLists(s, s')
    ensures HttpsServed(a, s0, s, ip) ==> HttpsServed(a, s0, s', ip)
  {
    hide Namer.Name;
  }

  lemma CertStays(a: Args, s0: C.Store, s: C.Store, s': C.Store, client: string)
    requires OnlyLists(s, s')
    ensures CertStored(a, s0, s, client) ==> CertStored(a, s0, s', client)
  {
    hide Namer.Name;
  }
}
