/** Create and remove-clusters keep three things in agreement: the clusters in
    the status, the groups of the backend services, the tags of the firewall rule. */
module Agreement {
  import opened Prelude
  import opened Names
  import opened Ingress
  import opened Sorting
  import opened Status
  import opened LoadBalancer
  import opened CreateRuns
  import opened Chains
  import opened RemoveRuns
  import opened Histories
  import C = Cloud
  import B = BackendServices
  import U = UrlMaps
  import F = FirewallRules

  /** The first tag of a cluster. */
  function TagIn(w: World): string -> string {
    c => if w.groups(c).None? then ""
         else
           var i := w.instance(w.groups(c).value[0]);
           if i.None? || i.value.tags == [] then "" else i.value.tags[0]
  }

  /** The same, as a list. */
  function TagListIn(w: World): string -> seq<string> {
    c => [TagIn(w)(c)]
  }

  lemma TagLists(w: World, clusters: seq<string>)
    ensures Mapped(TagIn(w), clusters) == FlatMapped(TagListIn(w), clusters)
  {
    MappedIsFlat(TagIn(w), clusters);
    FlatMappedSame(c => [TagIn(w)(c)], TagListIn(w), clusters);
  }

  ghost predicate ServicesAgree(n: Namer, w: World, ports: seq<ServicePort>, s: C.Store, clusters: seq<string>) {
    forall i :: 0 <= i < |ports| ==>
          ServiceAgrees(w, s.backendServices, n.Name(BackendService(ports[i].nodePort)), clusters)
  }

  ghost predicate ServiceAgrees(w: World, t: C.Table<C.BackendService>, name: string, clusters: seq<string>) {
    name in t && t[name].spec.backends == B.Refs(Sort(FlatMapped(GroupsIn(w), clusters)))
  }

  ghost predicate FirewallAgrees(w: World, t: C.Table<C.Firewall>, name: string, clusters: seq<string>) {
    name in t && t[name].spec.targetTags == Sort(Mapped(TagIn(w), clusters))
  }

  /** The URL map has a status, the backend service of each port is over exactly
      the groups of the clusters it lists, and the firewall rule is for exactly
      their first tags. */
  ghost predicate Agrees(a: Args, ports: seq<ServicePort>, s: C.Store) {
    var status := StoredStatus(a, s);
    && status.Some?
    && ServicesAgree(a.Namer(), a.w, ports, s, status.value.clusters)
    && FirewallAgrees(a.w, s.firewalls, a.Namer().Name(Firewall), status.value.clusters)
  }

  // ---------- Filtering what was collected cluster by cluster ----------

  lemma {:induction false} WithoutLength(s: seq<string>, gone: set<string>)
    ensures |Without(s, Self, gone)| == |s| <==> forall x :: x in s ==> x !in gone
  {
    if s != [] {
      WithoutLength(s[..|s| - 1], gone);
      assert s == s[..|s| - 1] + [s[|s| - 1]];
    }
  }

  /** No surviving element has anything in common with what goes. */
  ghost predicate Apart(f: string -> seq<string>, cs: seq<string>, remove: set<string>, gone: set<string>) {
    forall c, x :: c in cs && c !in remove && x in f(c) ==> x !in gone
  }

  /** Filtering the collected results is collecting from the filtered list,
      exactly if the survivors have nothing in common with what goes. */
  lemma {:induction false} FlatWithout(f: string -> seq<string>, cs: seq<string>, remove: set<string>,
                                       gone: set<string>)
    requires forall c, x :: c in cs && c in remove && x in f(c) ==> x in gone
    ensures |Without(FlatMapped(f, cs), Self, gone)| <= |FlatMapped(f, Without(cs, Self, remove))|
    ensures |Without(FlatMapped(f, cs), Self, gone)| == |FlatMapped(f, Without(cs, Self, remove))| <==>
              Apart(f, cs, remove, gone)
    ensures Apart(f, cs, remove, gone) ==>
              Without(FlatMapped(f, cs), Self, gone) == FlatMapped(f, Without(cs, Self, remove))
  {
    if cs != [] {
      var front, last := cs[..|cs| - 1], cs[|cs| - 1];
      assert forall c :: c in cs <==> c in front || c == last;
      FlatWithout(f, front, remove, gone);
      WithoutConcat(FlatMapped(f, front), f(last), Self, gone);
      WithoutLength(f(last), gone);
      if last in remove {
        WithoutEverything(f(last), Self, gone);
      } else {
        FlatMappedConcat(f, Without(front, Self, remove), [last]);
        FlatMappedOne(f, last);
        if forall x :: x in f(last) ==> x !in gone {
          WithoutNothing(f(last), Self, gone);
        }
      }
    }
  }

  /** The same for what is kept sorted. */
  lemma SortedFlatWithout(f: string -> seq<string>, cs: seq<string>, remove: set<string>, gone: set<string>)
    requires forall c, x :: c in cs && c in remove && x in f(c) ==> x in gone
    ensures Sort(Without(FlatMapped(f, cs), Self, gone)) == Sort(FlatMapped(f, Without(cs, Self, remove))) <==>
              Apart(f, cs, remove, gone)
  {
    hide Sort;
    FlatWithout(f, cs, remove, gone);
    var x, y := Without(FlatMapped(f, cs), Self, gone), FlatMapped(f, Without(cs, Self, remove));
    assert |Sort(x)| == |multiset(Sort(x))| == |x| && |Sort(y)| == |multiset(Sort(y))| == |y|;
  }

  lemma {:induction false} RefsWithout(groups: seq<string>, drop: set<string>)
    ensures Without(B.Refs(groups), B.GroupOf, drop) == B.Refs(Without(groups, Self, drop))
  {
    if groups != [] {
      var front := groups[..|groups| - 1];
      RefsWithout(front, drop);
      assert B.Refs(groups)[..|groups| - 1] == B.Refs(front);
      var rest := Without(front, Self, drop) + [groups[|groups| - 1]];
      assert rest[..|rest| - 1] == Without(front, Self, drop);
    }
  }

  lemma RefsInjective(x: seq<string>, y: seq<string>)
    requires B.Refs(x) == B.Refs(y)
    ensures x == y
  {
    forall i | 0 <= i < |x| ensures x[i] == y[i] {
      assert B.Refs(x)[i].group == B.Refs(y)[i].group;
    }
  }

  // ---------- Removal ----------

  /** No cluster that stays shares a group with one that goes. */
  ghost predicate GroupsApart(w: World, clusters: seq<string>, remove: set<string>) {
    Apart(GroupsIn(w), clusters, remove, LinksOf(w, remove))
  }

  /** No cluster that stays has the first tag of one that goes. */
  ghost predicate TagsApart(w: World, clusters: seq<string>, remove: set<string>) {
    Apart(TagListIn(w), clusters, remove, TagsOf(w, remove))
  }

  lemma ServiceStillAgrees(w: World, be: C.BackendService, clusters: seq<string>, remove: set<string>)
    requires be.backends == B.Refs(Sort(FlatMapped(GroupsIn(w), clusters)))
    ensures B.WithoutGroups(be, LinksOf(w, remove)).backends ==
            B.Refs(Sort(FlatMapped(GroupsIn(w), Without(clusters, Self, remove))))
            <==> GroupsApart(w, clusters, remove)
  {
    var f, gone := GroupsIn(w), LinksOf(w, remove);
    forall c, x | c in clusters && c in remove && x in f(c) ensures x in gone {
      assert c in GroupsOf(w, remove);
    }
    SortedFlatWithout(f, clusters, remove, gone);
    SortWithout(FlatMapped(f, clusters), gone);
    RefsWithout(Sort(FlatMapped(f, clusters)), gone);
    hide Sort, FlatMapped, Without, B.Refs, Apart;
    if B.Refs(Sort(Without(FlatMapped(f, clusters), Self, gone))) ==
        B.Refs(Sort(FlatMapped(f, Without(clusters, Self, remove)))) {
      RefsInjective(Sort(Without(FlatMapped(f, clusters), Self, gone)),
                    Sort(FlatMapped(f, Without(clusters, Self, remove))));
    }
  }

  lemma TagsGo(w: World, remove: set<string>, c: string)
    requires c in remove && GroupsKnown(w, remove) && F.TagsKnown(w, GroupsOf(w, remove))
    ensures TagIn(w)(c) in TagsOf(w, remove)
  {
    assert c in GroupsOf(w, remove);
  }

  lemma FirewallStillAgrees(w: World, fw: C.Firewall, clusters: seq<string>, remove: set<string>)
    requires fw.targetTags == Sort(Mapped(TagIn(w), clusters))
    requires GroupsKnown(w, remove) && F.TagsKnown(w, GroupsOf(w, remove))
    ensures F.WithoutTags(fw, TagsOf(w, remove)).targetTags == Sort(Mapped(TagIn(w), Without(clusters, Self, remove)))
            <==> TagsApart(w, clusters, remove)
  {
    hide Sort, Without, TagIn, TagsOf, GroupsOf, F.TagsKnown, GroupsKnown, FlatMapped, Mapped;
    var f, gone := TagListIn(w), TagsOf(w, remove);
    forall c, x | c in clusters && c in remove && x in f(c) ensures x in gone {
      TagsGo(w, remove, c);
    }
    TagLists(w, clusters);
    TagLists(w, Without(clusters, Self, remove));
    SortedFlatWithout(f, clusters, remove, gone);
    SortWithout(FlatMapped(f, clusters), gone);
    SortTwice(Without(FlatMapped(f, clusters), Self, gone));
  }

  lemma SortTwice(s: seq<string>)
    ensures Sort(Sort(s)) == Sort(s)
  {
    SortForgetsOrder(Sort(s), s);
  }

  lemma StatusAfter(a: Args, remove: set<string>, s: C.Store, s': C.Store, r: Removal)
    requires RemoveRun(a, remove, s, s', Nil, r) && Lawful(a.codec) && StoredStatus(a, s).Some?
    ensures var status := StoredStatus(a, s).value;
            StoredStatus(a, s') == Some(status.(clusters := Without(status.clusters, Self, remove)))
  {
    hide NodePorts, Namer.Name, GroupsRemoved, GroupsKnown, Without;
  }

  lemma FirewallAfter(a: Args, remove: set<string>, s: C.Store, s': C.Store, r: Removal, clusters: seq<string>)
    requires RemoveRun(a, remove, s, s', Nil, r) && FirewallAgrees(a.w, s.firewalls, a.Namer().Name(Firewall), clusters)
    ensures FirewallAgrees(a.w, s'.firewalls, a.Namer().Name(Firewall), Without(clusters, Self, remove)) <==>
              TagsApart(a.w, clusters, remove)
  {
    hide NodePorts, Namer.Name, F.WithoutTags, F.TagSet, GroupsOf, Without, Sort, Mapped, TagIn, TagsApart,
         B.RemovedFrom, StatusUpdated,
         StatusFound, GroupsKnown, F.TagsKnown;
    FirewallStillAgrees(a.w, s.firewalls[a.Namer().Name(Firewall)].spec, clusters, remove);
  }

  lemma ServiceAfter(a: Args, remove: set<string>, s: C.Store, s': C.Store, r: Removal, clusters: seq<string>, i: nat)
    requires RemoveRun(a, remove, s, s', Nil, r) && i < |r.ports|
    requires ServiceAgrees(a.w, s.backendServices, a.Namer().Name(BackendService(r.ports[i].nodePort)), clusters)
    ensures ServiceAgrees(a.w, s'.backendServices, a.Namer().Name(BackendService(r.ports[i].nodePort)),
                          Without(clusters, Self, remove))
            <==> GroupsApart(a.w, clusters, remove)
  {
    hide NodePorts, Namer.Name, B.WithoutGroups, GroupSet, GroupsOf, Without, Sort, FlatMapped, B.Refs, GroupsIn,
         GroupsApart, F.RemovedFrom,
         StatusUpdated, StatusFound, GroupsKnown;
    var name := a.Namer().Name(BackendService(r.ports[i].nodePort));
    assert B.LostGroups(s.backendServices, s'.backendServices, name, LinksOf(a.w, remove));
    ServiceStillAgrees(a.w, s.backendServices[name].spec, clusters, remove);
  }

  /** Once everything agrees, a successful removal keeps it so exactly if no
      cluster that stays shares a group or the first tag with one that goes. */
  lemma RemoveKeepsAgreement(a: Args, remove: set<string>, s: C.Store, s': C.Store, r: Removal)
    requires RemoveRun(a, remove, s, s', Nil, r) && Lawful(a.codec) && Agrees(a, r.ports, s)
    ensures var clusters := StoredStatus(a, s).value.clusters;
            && StoredStatus(a, s') == Some(StoredStatus(a, s).value.(clusters := Without(clusters, Self, remove)))
            && (Agrees(a, r.ports, s') <==>
                (r.ports == [] || GroupsApart(a.w, clusters, remove)) && TagsApart(a.w, clusters, remove))
  {
    hide RemoveRun, Namer.Name, Without, GroupsApart, TagsApart, ServiceAgrees, FirewallAgrees, StoredStatus;
    var n := a.Namer();
    var clusters := StoredStatus(a, s).value.clusters;
    var left := Without(clusters, Self, remove);
    StatusAfter(a, remove, s, s', r);
    FirewallAfter(a, remove, s, s', r, clusters);
    forall i | 0 <= i < |r.ports|
      ensures ServiceAgrees(a.w, s'.backendServices, n.Name(BackendService(r.ports[i].nodePort)), left) <==>
                GroupsApart(a.w, clusters, remove)
    {
      ServiceAfter(a, remove, s, s', r, clusters, i);
    }
    assert r.ports != [] ==> (ServicesAgree(n, a.w, r.ports, s', left) <==>
      ServiceAgrees(a.w, s'.backendServices, n.Name(BackendService(r.ports[0].nodePort)), left));
  }

  // ---------- Create ----------

  lemma SortedGroups(w: World, clients: set<string>, order: seq<string>, clusters: seq<string>)
    requires Enumerates(order, clients) && Enumerates(clusters, clients)
    ensures Sort(FlatMapped(GroupsIn(w), order)) == Sort(FlatMapped(GroupsIn(w), Sort(clusters)))
  {
    EnumerationsPermute(order, clusters, clients);
    FlatMappedPermute(GroupsIn(w), order, Sort(clusters));
    SortForgetsOrder(FlatMapped(GroupsIn(w), order), FlatMapped(GroupsIn(w), Sort(clusters)));
  }

  lemma SameTag(w: World, clients: set<string>, c: string)
    requires c in clients
    ensures F.TagOf(w, GroupsOf(w, clients))(c) == TagIn(w)(c)
  {
  }

  lemma SortedTags(w: World, clients: set<string>, order: seq<string>, clusters: seq<string>)
    requires Enumerates(order, clients) && Enumerates(clusters, clients)
    ensures Sort(Mapped(F.TagOf(w, GroupsOf(w, clients)), order)) == Sort(Mapped(TagIn(w), Sort(clusters)))
  {
    hide Mapped, Sort, F.TagOf, TagIn;
    EnumerationsPermute(order, clusters, clients);
    MappedPermute(TagIn(w), order, Sort(clusters));
    var f := F.TagOf(w, GroupsOf(w, clients));
    forall c | c in order ensures f(c) == TagIn(w)(c) {
      SameTag(w, clients, c);
    }
    MappedSame(f, TagIn(w), order);
    SortForgetsOrder(Mapped(TagIn(w), order), Mapped(TagIn(w), Sort(clusters)));
  }

  lemma ServicesAfterCreate(a: Args, s: C.Store, s': C.Store, r: Run, i: nat)
    requires CreateRun(a, s, s', Nil, r) && Enumerates(a.clusters, a.clients) && i < |r.inp.ports|
    ensures ServiceAgrees(a.w, s'.backendServices, a.Namer().Name(BackendService(r.inp.ports[i].nodePort)),
                          Sort(a.clusters))
  {
    hide HealthStage, GroupStage, BackendStage, UrlMapStage, HttpStage, HttpsStage, FirewallStage, InputStage,
         Namer.Name, AddressOf,
         FlatMapped, Enumerates, Sort, B.Refs, GroupsOf, PortWired, AreBackends, GroupsIn;
    PortChain(a, s, s', r, i);
    var backends := s'.backendServices[a.Namer().Name(BackendService(r.inp.ports[i].nodePort))].spec.backends;
    var order :| Enumerates(order, a.clients) && AreBackends(backends, Sort(FlatMapped(GroupsIn(a.w), order)));
    BackendsAreRefs(backends, Sort(FlatMapped(GroupsIn(a.w), order)));
    SortedGroups(a.w, a.clients, order, a.clusters);
  }

  lemma BackendsAreRefs(backends: seq<C.BackendRef>, groups: seq<string>)
    requires AreBackends(backends, groups)
    ensures backends == B.Refs(groups)
  {
  }

  lemma AllServicesAfterCreate(a: Args, s: C.Store, s': C.Store, r: Run)
    requires CreateRun(a, s, s', Nil, r) && Enumerates(a.clusters, a.clients)
    ensures ServicesAgree(a.Namer(), a.w, r.inp.ports, s', Sort(a.clusters))
  {
    hide CreateRun, ServiceAgrees, Namer.Name, Sort, Enumerates;
    forall i | 0 <= i < |r.inp.ports|
      ensures ServiceAgrees(a.w, s'.backendServices, a.Namer().Name(BackendService(r.inp.ports[i].nodePort)),
                            Sort(a.clusters))
    {
      ServicesAfterCreate(a, s, s', r, i);
    }
  }

  lemma FirewallAfterCreate(a: Args, t: C.Table<C.Firewall>, t': C.Table<C.Firewall>, r: Run)
    requires FirewallStage(a, t, t', r.inp, r.ig, r.fw) && r.fw.err == Nil
    requires r.ig.igs == GroupsOf(a.w, a.clients) && r.ig.igs.Keys == a.clients
    requires Enumerates(a.clusters, a.clients)
    ensures FirewallAgrees(a.w, t', a.Namer().Name(Firewall), Sort(a.clusters))
  {
    hide Namer.Name, Enumerates, Sort, GroupsOf, F.PortStrings, F.TagsKnown, Mapped, F.TagOf, TagIn;
    var want := r.fw.want.value;
    var order :| Enumerates(order, r.ig.igs.Keys) &&
      want == F.Desired(a.lbName, r.inp.ports, Mapped(F.TagOf(a.w, r.ig.igs), order), want.network);
    SortedTags(a.w, a.clients, order, a.clusters);
  }

  /** The status of a load balancer that was created at this address. */
  function CreatedStatus(a: Args, ip: string): LoadBalancerStatus {
    LoadBalancerStatus("URL map for kubernetes multicluster loadbalancer " + a.lbName, a.lbName, Sort(a.clusters), ip)
  }

  lemma StatusAfterCreate(a: Args, t: C.Table<C.UrlMap>, t': C.Table<C.UrlMap>, r: Run)
    requires UrlMapStage(a, t, t', r.inp, r.be, r.um) && r.um.err == Nil && Lawful(a.codec)
    ensures U.StatusOf(a.codec, t', a.Namer().Name(UrlMap)) == Some(CreatedStatus(a, r.inp.ip))
  {
    hide Namer.Name, U.Translatable, Sort;
  }

  /** A successful create, forced or not and from any store, makes everything
      agree on the given clusters. */
  lemma CreateEstablishesAgreement(a: Args, s: C.Store, s': C.Store, r: Run)
    requires CreateRun(a, s, s', Nil, r) && Lawful(a.codec) && Enumerates(a.clusters, a.clients)
    ensures Agrees(a, r.inp.ports, s')
    ensures StoredStatus(a, s') == Some(CreatedStatus(a, r.inp.ip))
  {
    hide CreateRun, Namer.Name, Enumerates, Sort, U.StatusOf, ServicesAgree, FirewallAgrees, NodePorts;
    FrontAfterCreate(a, s, s', r);
    AllServicesAfterCreate(a, s, s', r);
  }

  lemma FrontAfterCreate(a: Args, s: C.Store, s': C.Store, r: Run)
    requires CreateRun(a, s, s', Nil, r) && Lawful(a.codec) && Enumerates(a.clusters, a.clients)
    ensures StoredStatus(a, s') == Some(CreatedStatus(a, r.inp.ip))
    ensures FirewallAgrees(a.w, s'.firewalls, a.Namer().Name(Firewall), Sort(a.clusters))
  {
    hide HealthStage, BackendStage, UrlMapStage, HttpStage, HttpsStage, FirewallStage, InputStage, GroupStage,
         AddressOf, GroupsOf,
         Namer.Name, Enumerates, Sort, U.StatusOf, FirewallAgrees;
    GroupKeys(a, r.ig);
    StatusAfterCreate(a, s.urlMaps, s'.urlMaps, r);
    FirewallAfterCreate(a, s.firewalls, s'.firewalls, r);
  }

  /** What agrees stays so when the store only grows. */
  lemma GrowthKeepsAgreement(a: Args, ports: seq<ServicePort>, s: C.Store, s': C.Store)
    requires StoreExtends(s, s') && Agrees(a, ports, s)
    ensures Agrees(a, ports, s') && StoredStatus(a, s') == StoredStatus(a, s)
  {
    hide Namer.Name, Sort, FlatMapped, Mapped, B.Refs;
    forall i | 0 <= i < |ports|
      ensures ServiceAgrees(a.w, s'.backendServices, a.Namer().Name(BackendService(ports[i].nodePort)),
                            StoredStatus(a, s).value.clusters)
    {
      assert ServiceAgrees(a.w, s.backendServices, a.Namer().Name(BackendService(ports[i].nodePort)),
                           StoredStatus(a, s).value.clusters);
    }
  }

  // ---------- Every sequence of runs ----------

  /** The command is about this ingress, seen the same way: the clusters are
      among the given ones, and their clients agree on the node ports. It
      succeeds, or it is an unforced create and may fail at any point. */
  ghost predicate Regular(e: Event, base: Args, ports: seq<ServicePort>, fleet: set<string>) {
    && e.a.lbName == base.lbName && e.a.codec == base.codec && e.a.ing == base.ing && e.a.w == base.w
    && (forall c :: c in e.a.clients ==> NodePorts(base.w, c, base.ing) == ports)
    && !e.Deleted?
    && (e.Created? ==> Enumerates(e.a.clusters, e.a.clients) && e.a.clients <= fleet && (e.err == Nil || !e.a.force))
    && (e.ClustersRemoved? ==> e.remove <= fleet && e.err == Nil)
  }

  /** No two clusters share a group, and no two have the same first tag. */
  ghost predicate FleetApart(w: World, fleet: set<string>) {
    && (forall c, d, g :: c in fleet && d in fleet && c != d && g in GroupsIn(w)(c) ==> g !in GroupsIn(w)(d))
    && (forall c, d :: c in fleet && d in fleet && c != d && w.groups(d).Some? ==>
          F.FirstTag(w, w.groups(d).value) != Some(TagIn(w)(c)))
  }

  lemma FleetMeansApart(w: World, fleet: set<string>, clusters: seq<string>, remove: set<string>)
    requires FleetApart(w, fleet) && Elements(clusters) <= fleet && remove <= fleet
    ensures GroupsApart(w, clusters, remove) && TagsApart(w, clusters, remove)
  {
    forall c, x | c in clusters && c !in remove && x in GroupsIn(w)(c) ensures x !in LinksOf(w, remove) {
      assert c in Elements(clusters);
      assert forall d :: d in GroupsOf(w, remove) ==> GroupsOf(w, remove)[d] == GroupsIn(w)(d);
    }
    forall c, x | c in clusters && c !in remove && x in TagListIn(w)(c) ensures x !in TagsOf(w, remove) {
      assert c in Elements(clusters) && x == TagIn(w)(c);
    }
  }

  /** The state between runs: everything agrees, on clusters of the fleet. */
  ghost predicate AgreesOn(base: Args, ports: seq<ServicePort>, fleet: set<string>, s: C.Store) {
    Agrees(base, ports, s) && Elements(StoredStatus(base, s).value.clusters) <= fleet
  }

  lemma StepKeepsAgreement(e: Event, base: Args, ports: seq<ServicePort>, fleet: set<string>, s: C.Store, s': C.Store)
    requires Happens(e, s, s') && Regular(e, base, ports, fleet) && FleetApart(base.w, fleet) && Lawful(base.codec)
    requires AgreesOn(base, ports, fleet, s) || (e.Created? && e.err == Nil)
    ensures AgreesOn(base, ports, fleet, s')
  {
    hide NodePorts, FleetApart, Lawful, AgreesOn, Enumerates, CreateRun, RemoveRun;
    match e {
      case Created(a, err, run) =>
        if err == Nil {
          CreateGivesFleet(a, base, ports, fleet, s, s', run);
        } else {
          UnforcedCreateIsMonotone(a, s, s', err, run);
          GrowthKeepsFleet(base, ports, fleet, s, s');
        }
      case ClustersRemoved(a, remove, err, removal) =>
        RemovalKeepsFleet(a, remove, base, ports, fleet, s, s', removal);
    }
  }

  lemma GrowthKeepsFleet(base: Args, ports: seq<ServicePort>, fleet: set<string>, s: C.Store, s': C.Store)
    requires StoreExtends(s, s') && AgreesOn(base, ports, fleet, s)
    ensures AgreesOn(base, ports, fleet, s')
  {
    hide StoreExtends, Agrees, StoredStatus;
    GrowthKeepsAgreement(base, ports, s, s');
  }

  lemma RemovalKeepsFleet(a: Args, remove: set<string>, base: Args, ports: seq<ServicePort>, fleet: set<string>,
                          s: C.Store, s': C.Store, r: Removal)
    requires RemoveRun(a, remove, s, s', Nil, r) && Regular(ClustersRemoved(a, remove, Nil, r), base, ports, fleet)
    requires FleetApart(base.w, fleet) && Lawful(base.codec) && AgreesOn(base, ports, fleet, s)
    ensures AgreesOn(base, ports, fleet, s')
  {
    hide NodePorts, FleetApart, Lawful, Namer.Name, ServicesAgree, FirewallAgrees, Enumerates, RemoveRun;
    RemovalPorts(a, remove, s, s', r);
    RemoveKeepsAgreement(a, remove, s, s', r);
    FleetMeansApart(base.w, fleet, StoredStatus(a, s).value.clusters, remove);
  }

  lemma RemovalPorts(a: Args, remove: set<string>, s: C.Store, s': C.Store, r: Removal)
    requires RemoveRun(a, remove, s, s', Nil, r)
    ensures r.client in a.clients && r.ports == NodePorts(a.w, r.client, a.ing)
  {
  }

  lemma CreateGivesFleet(a: Args, base: Args, ports: seq<ServicePort>, fleet: set<string>, s: C.Store, s': C.Store,
                         r: Run)
    requires CreateRun(a, s, s', Nil, r) && Regular(Created(a, Nil, r), base, ports, fleet) && Lawful(base.codec)
    ensures AgreesOn(base, ports, fleet, s')
  {
    hide HealthStage, GroupStage, BackendStage, UrlMapStage, HttpStage, HttpsStage, FirewallStage, ServicesAgree,
         FirewallAgrees, NodePorts,
         AddressOf, Lawful, Namer.Name;
    CreateEstablishesAgreement(a, s, s', r);
    SortElements(a.clusters);
  }

  /** Any number of runs on one ingress after a first successful create. */
  ghost predicate OneIngress(events: seq<Event>, base: Args, ports: seq<ServicePort>, fleet: set<string>) {
    && |events| > 0 && events[0].Created? && events[0].err == Nil
    && forall i :: 0 <= i < |events| ==> Regular(events[i], base, ports, fleet)
  }

  /** Whatever creates and removals follow a successful create, after each of
      them the backend services are over exactly the groups of the clusters in
      the status, and the firewall rule is for exactly their first tags. */
  lemma {:induction false} AgreementAlways(events: seq<Event>, stores: seq<C.Store>, base: Args,
                                           ports: seq<ServicePort>, fleet: set<string>, i: nat)
    requires History(events, stores) && OneIngress(events, base, ports, fleet) && FleetApart(base.w, fleet)
    requires Lawful(base.codec)
    requires 1 <= i < |stores|
    ensures Agrees(base, ports, stores[i]) && Elements(StoredStatus(base, stores[i]).value.clusters) <= fleet
  {
    hide Happens, Regular, FleetApart, Lawful, Agrees, StoredStatus;
    if i > 1 {
      AgreementAlways(events, stores, base, ports, fleet, i - 1);
    }
    assert Happens(events[i - 1], stores[i - 1], stores[i]) && Regular(events[i - 1], base, ports, fleet);
    StepKeepsAgreement(events[i - 1], base, ports, fleet, stores[i - 1], stores[i]);
  }
}
