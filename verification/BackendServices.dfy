/** Backend services: one per node port, over the instance groups of all clusters. */
module BackendServices {
  import opened Prelude
  import opened Names
  import opened Ingress
  import opened Sorting
  import C = Cloud

  const MAX_RATE_PER_INSTANCE: real := 100000000000000.0

  function Link(namer: Namer, port: Port): C.Link {
    C.SelfLink(C.BackendServices, namer.Name(BackendService(port)))
  }

  function GroupOf(b: C.BackendRef): string { b.group }

  function RefTo(group: string): C.BackendRef {
    C.BackendRef(group, "RATE", MAX_RATE_PER_INSTANCE, 1.0)
  }

  function Refs(groups: seq<string>): (r: seq<C.BackendRef>)
    ensures |r| == |groups| && forall i :: 0 <= i < |r| ==> r[i] == RefTo(groups[i])
  {
    if groups == [] then [] else Refs(groups[..|groups| - 1]) + [RefTo(groups[|groups| - 1])]
  }

  /** desiredBackends: sorts the groups, then wraps each. */
  method DesiredBackends(groups: seq<string>) returns (backends: seq<C.BackendRef>)
    ensures backends == Refs(Sort(groups))
  {
    var sorted := Sort(groups);
    backends := [];
    for i := 0 to |sorted|
      invariant backends == Refs(sorted[..i])
    {
      assert sorted[..i + 1][..i] == sorted[..i];
      backends := backends + [RefTo(sorted[i])];
    }
    assert sorted[..|sorted|] == sorted;
  }

  function Desired(lbName: string, port: ServicePort, hc: C.Link, portName: string,
                   groups: seq<string>): C.BackendService {
    C.BackendService(
      "Backend service for service " + port.Description() + " as part of kubernetes multicluster loadbalancer " +
      lbName,
      port.protocol,
      [hc],
      port.nodePort,
      portName,
      Refs(Sort(groups)),
      0,
      None,
      Some(0),
      false,
      "EXTERNAL",
      "NONE",
      30)
  }

  /** The backend service without the given groups; the others keep their order. */
  function WithoutGroups(be: C.BackendService, drop: set<string>): C.BackendService {
    be.(backends := Without(be.backends, GroupOf, drop))
  }

  /** The map of groups to be removed that desiredBackendServiceWithoutClusters builds. */
  method RemovalMap(removeGroups: seq<string>) returns (removeMap: map<string, bool>)
    ensures removeMap.Keys == Elements(removeGroups)
  {
    hide Sort, Refs;
    var removeBackends := DesiredBackends(removeGroups);
    ghost var sorted := Sort(removeGroups);
    removeMap := map[];
    for i := 0 to |removeBackends|
      invariant removeMap.Keys == Elements(sorted[..i])
    {
      removeMap := removeMap[removeBackends[i].group := true];
      assert sorted[..i + 1] == sorted[..i] + [sorted[i]];
    }
    assert sorted[..|sorted|] == sorted;
    SortElements(removeGroups);
  }

  /** desiredBackendServiceWithoutClusters. */
  method DesiredWithoutClusters(be: C.BackendService, removeGroups: seq<string>) returns (r: C.BackendService)
    ensures r == WithoutGroups(be, Elements(removeGroups))
    ensures r == be.(backends := r.backends) && r.backends == Without(be.backends, GroupOf, Elements(removeGroups))
  {
    var removeMap := RemovalMap(removeGroups);
    var newBackends := Unmarked(be.backends, GroupOf, removeMap);
    r := be.(backends := newBackends);
  }

  lemma WithoutGroupsTwice(be: C.BackendService, a: set<string>, b: set<string>)
    ensures WithoutGroups(WithoutGroups(be, a), b) == WithoutGroups(be, a + b)
  {
    WithoutTwice(be.backends, GroupOf, a, b);
  }

  /** Which service each service name stands for: the last port with that name. */
  function ServiceMap(namer: Namer, ports: seq<ServicePort>): map<string, C.Link> {
    if ports == [] then map[]
    else
      var last := ports[|ports| - 1];
      ServiceMap(namer, ports[..|ports| - 1])[last.svcName := Link(namer, last.nodePort)]
  }

  /** What one call of EnsureBackendService is asked to do. */
  datatype Job = Job(namer: Namer, lbName: string, ports: seq<ServicePort>, hcs: map<Port, C.Link>,
                     namedPorts: map<Port, string>, groups: seq<string>, force: bool, reliable: bool)

  /** There is a health check to point to and a named port to use. */
  predicate Supplied(hcs: map<Port, C.Link>, namedPorts: map<Port, string>, p: ServicePort) {
    p.nodePort in hcs && hcs[p.nodePort] != C.NoLink && p.nodePort in namedPorts
  }

  ghost predicate WantFor(job: Job, want: C.Want<C.BackendService>, p: ServicePort) {
    && want.name == job.namer.Name(BackendService(p.nodePort))
    && Supplied(job.hcs, job.namedPorts, p)
    && want.spec == Desired(job.lbName, p, job.hcs[p.nodePort], job.namedPorts[p.nodePort], job.groups)
  }

  /** One wanted backend service for each of the first `n` ports, in order. */
  ghost predicate WantsFor(job: Job, wants: seq<C.Want<C.BackendService>>, n: nat) {
    |wants| == n <= |job.ports| && forall i :: 0 <= i < n ==> WantFor(job, wants[i], job.ports[i])
  }

  /** Every wanted backend service is for one of the ports. */
  ghost predicate WantsAmong(job: Job, wants: seq<C.Want<C.BackendService>>) {
    forall i :: 0 <= i < |wants| ==> ForSomePort(job, wants[i])
  }

  ghost predicate ForSomePort(job: Job, want: C.Want<C.BackendService>) {
    exists j :: 0 <= j < |job.ports| && WantFor(job, want, job.ports[j])
  }

  /** Each entry is the link of the backend service of a port with that name. */
  ghost predicate OwnServices(job: Job, services: map<string, C.Link>) {
    forall s :: s in services ==>
      exists j :: 0 <= j < |job.ports| && job.ports[j].svcName == s &&
          services[s] == Link(job.namer, job.ports[j].nodePort)
  }

  /** The state of EnsureBackendService after `n` ports. */
  ghost predicate Progress(job: Job, t: C.Table<C.BackendService>, t': C.Table<C.BackendService>, n: nat,
                           services: map<string, C.Link>, err: Err, wants: seq<C.Want<C.BackendService>>, ok: bool) {
    && C.ReconciledAll(t, t', wants, job.force, ok, job.reliable)
    && WantsAmong(job, wants)
    && |wants| <= n <= |job.ports|
    && (err == Nil <==> ok && |wants| == n)
    && (|wants| == n ==> WantsFor(job, wants, n))
    && ((forall i :: 0 <= i < n ==> Supplied(job.hcs, job.namedPorts, job.ports[i])) ==> |wants| == n)
    && OwnServices(job, services)
    && (err == Nil ==> services == ServiceMap(job.namer, job.ports[..n]))
  }

  /** What one round does: it ensures the wanted service, or there is none. */
  ghost predicate Round(job: Job, t: C.Table<C.BackendService>, t': C.Table<C.BackendService>, p: ServicePort,
                        link: C.Link, err: Err) {
    && (!Supplied(job.hcs, job.namedPorts, p) ==> err != Nil && t' == t)
    && (Supplied(job.hcs, job.namedPorts, p) ==>
          C.Reconciled(t, t', TheWant(job, p).name, TheWant(job, p).spec, job.force, err, job.reliable))
    && (err == Nil ==> link == Link(job.namer, p.nodePort))
  }

  ghost function TheWant(job: Job, p: ServicePort): (want: C.Want<C.BackendService>)
    requires Supplied(job.hcs, job.namedPorts, p)
    ensures WantFor(job, want, p)
  {
    C.Want(job.namer.Name(BackendService(p.nodePort)),
           Desired(job.lbName, p, job.hcs[p.nodePort], job.namedPorts[p.nodePort], job.groups))
  }

  lemma ListedAreAmong(job: Job, wants: seq<C.Want<C.BackendService>>, n: nat)
    requires WantsFor(job, wants, n)
    ensures WantsAmong(job, wants)
  {
    forall i | 0 <= i < |wants| ensures ForSomePort(job, wants[i]) {
      assert WantFor(job, wants[i], job.ports[i]);
    }
  }

  lemma ProgressStart(job: Job, t: C.Table<C.BackendService>)
    ensures Progress(job, t, t, 0, map[], Nil, [], true)
  {
    C.ReconciledNone(t, job.force, job.reliable);
  }

  lemma ServicesStep(job: Job, services: map<string, C.Link>, n: nat)
    requires n < |job.ports| && OwnServices(job, services)
    ensures var p := job.ports[n];
            var services' := services[p.svcName := Link(job.namer, p.nodePort)];
            && OwnServices(job, services')
            && (services == ServiceMap(job.namer, job.ports[..n]) ==>
                  services' == ServiceMap(job.namer, job.ports[..n + 1]))
  {
    assert job.ports[..n + 1][..n] == job.ports[..n];
  }

  /** A round for a port that could not be supplied adds only an error. */
  lemma ProgressSkip(job: Job, t: C.Table<C.BackendService>, t1: C.Table<C.BackendService>, n: nat,
                     services: map<string, C.Link>, err: Err, wants: seq<C.Want<C.BackendService>>, ok: bool,
                     beErr: Err)
    requires Progress(job, t, t1, n, services, err, wants, ok)
    requires n < |job.ports| && !Supplied(job.hcs, job.namedPorts, job.ports[n]) && beErr != Nil
    ensures Progress(job, t, t1, n + 1, services, Append(err, beErr), wants, ok)
  {
    hide C.ReconciledAll, WantFor, Supplied, OwnServices, ServiceMap, WantsAmong, WantsFor;
  }

  lemma ProgressMore(job: Job, t: C.Table<C.BackendService>, t1: C.Table<C.BackendService>,
                     t2: C.Table<C.BackendService>, n: nat,
                     services: map<string, C.Link>, err: Err, wants: seq<C.Want<C.BackendService>>, ok: bool,
                     beErr: Err)
    requires Progress(job, t, t1, n, services, err, wants, ok)
    requires n < |job.ports| && Supplied(job.hcs, job.namedPorts, job.ports[n])
    requires C.Reconciled(t1, t2, TheWant(job, job.ports[n]).name, TheWant(job, job.ports[n]).spec, job.force, beErr,
                          job.reliable)
    ensures var p := job.ports[n];
            Progress(job, t, t2, n + 1, if beErr == Nil then services[p.svcName := Link(job.namer, p.nodePort)]
                     else services, Append(err, beErr),
                     wants + [TheWant(job, p)], ok && beErr == Nil)
  {
    hide C.ReconciledAll, C.Reconciled, WantFor, Supplied, OwnServices, ServiceMap, TheWant, Link, WantsAmong, WantsFor;
    C.ReconciledStep(t, t1, t2, wants, TheWant(job, job.ports[n]), job.force, ok, beErr, job.reliable);
    WantsStep(job, wants, n);
    ServicesStep(job, services, n);
  }

  lemma WantsStep(job: Job, wants: seq<C.Want<C.BackendService>>, n: nat)
    requires n < |job.ports| && Supplied(job.hcs, job.namedPorts, job.ports[n]) && WantsAmong(job, wants)
    ensures WantsAmong(job, wants + [TheWant(job, job.ports[n])])
    ensures WantsFor(job, wants, n) ==> WantsFor(job, wants + [TheWant(job, job.ports[n])], n + 1)
  {
    hide WantFor, Supplied, TheWant;
    assert ForSomePort(job, TheWant(job, job.ports[n])) by {
      assert WantFor(job, TheWant(job, job.ports[n]), job.ports[n]);
    }
    hide ForSomePort;
  }

  // ---------- Removal of clusters ----------

  /** Removal over a list of ports: each record is as before or lost the groups;
      without an error every port's record was there and lost them. */
  ghost predicate RemovedFrom(namer: Namer, ports: seq<ServicePort>, n: nat, drop: set<string>,
                              t: C.Table<C.BackendService>,
                              t': C.Table<C.BackendService>, err: Err, reliable: bool) {
    && n <= |ports|
    && t'.Keys == t.Keys
    && (forall k :: k in t ==>
          || t'[k] == t[k]
          || (t'[k].spec == WithoutGroups(t[k].spec, drop) && exists i :: 0 <= i < n &&
                                                                k == namer.Name(BackendService(ports[i].nodePort))))
    && (err == Nil ==>
          forall i :: 0 <= i < n ==> LostGroups(t, t', namer.Name(BackendService(ports[i].nodePort)), drop))
    && (reliable && (forall i :: 0 <= i < n ==> namer.Name(BackendService(ports[i].nodePort)) in t) ==> err == Nil)
  }

  ghost predicate LostGroups(t: C.Table<C.BackendService>, t': C.Table<C.BackendService>, name: string,
                             drop: set<string>) {
    name in t && name in t' && t'[name].spec == WithoutGroups(t[name].spec, drop)
  }

  /** Removal of one port's groups. */
  ghost predicate RemovedOne(name: string, drop: set<string>, t: C.Table<C.BackendService>,
                             t': C.Table<C.BackendService>,
                             err: Err, reliable: bool) {
    && (t' == t || (name in t && C.Wrote(t, t', name, WithoutGroups(t[name].spec, drop))))
    && (err == Nil ==> LostGroups(t, t', name, drop))
    && (reliable && name in t ==> err == Nil)
  }

  lemma RemovalStep(namer: Namer, ports: seq<ServicePort>, n: nat, drop: set<string>, t: C.Table<C.BackendService>,
                    t1: C.Table<C.BackendService>, t2: C.Table<C.BackendService>, err: Err, beErr: Err, reliable: bool)
    requires RemovedFrom(namer, ports, n, drop, t, t1, err, reliable)
    requires n < |ports| && RemovedOne(namer.Name(BackendService(ports[n].nodePort)), drop, t1, t2, beErr, reliable)
    ensures RemovedFrom(namer, ports, n + 1, drop, t, t2, Append(err, beErr), reliable)
  {
    hide WithoutGroups, Namer.Name;
    var name := namer.Name(BackendService(ports[n].nodePort));
    if name in t {
      WithoutGroupsTwice(t[name].spec, drop, drop);
      assert drop + drop == drop;
    }
    forall k | k in t
      ensures t2[k] == t[k] ||
          (t2[k].spec == WithoutGroups(t[k].spec, drop) && exists i :: 0 <= i < n + 1 &&
                                                             k == namer.Name(BackendService(ports[i].nodePort)))
    {
      if t2[k] != t1[k] {
        assert k == namer.Name(BackendService(ports[n].nodePort));
      } else if t1[k] != t[k] {
        var i :| 0 <= i < n && k == namer.Name(BackendService(ports[i].nodePort));
        assert 0 <= i < n + 1;
      }
    }
  }

  /** The names of the backend services of these ports. */
  function PortNames(namer: Namer, ports: seq<ServicePort>): (names: seq<string>)
    ensures |names| == |ports| && forall i :: 0 <= i < |ports| ==>
              names[i] == namer.Name(BackendService(ports[i].nodePort))
  {
    Mapped((p: ServicePort) => namer.Name(BackendService(p.nodePort)), ports)
  }

  ghost function NameSet(namer: Namer, ports: seq<ServicePort>): set<string> {
    Elements(PortNames(namer, ports))
  }

  /** The names another resource refers to, which a strict cloud protects. */
  ghost function Busy(strict: bool, t: C.Table<C.BackendService>, users: C.Table<C.UrlMap>): set<string> {
    set k | k in t && strict && C.BackendServiceInUse(users, k)
  }

  class Syncer {
    const namer: Namer
    const cloud: C.Cloud

    constructor (namer: Namer, cloud: C.Cloud)
      ensures this.namer == namer && this.cloud == cloud
    {
      this.namer, this.cloud := namer, cloud;
    }

    /** ensureBackendService for one port. */
    method EnsureOne(lbName: string, port: ServicePort, hcs: map<Port, C.Link>, namedPorts: map<Port, string>,
                     groups: seq<string>, force: bool, ghost job: Job)
      returns (link: C.Link, err: Err)
      requires job == Job(namer, lbName, job.ports, hcs, namedPorts, groups, force, cloud.reliable)
      modifies cloud`backendServices
      ensures Round(job, old(cloud.backendServices), cloud.backendServices, port, link, err)
    {
      link := C.NoLink;
      if port.nodePort !in hcs || hcs[port.nodePort] == C.NoLink || port.nodePort !in namedPorts {
        return C.NoLink, Other;
      }
      var backends := DesiredBackends(groups);
      var want := Desired(lbName, port, hcs[port.nodePort], namedPorts[port.nodePort], groups).(backends := backends);
      var name := namer.Name(BackendService(port.nodePort));
      var existing, getErr := C.Fetch(cloud.backendServices, name, cloud.reliable);
      if getErr == Nil {
        if existing.value.spec == want {
          return Link(namer, port.nodePort), Nil;
        }
        if !force {
          return C.NoLink, Other;
        }
        cloud.backendServices, err :=
          C.Replace(cloud.backendServices, name, want, Some(existing.value.fingerprint), cloud.reliable);
      } else {
        cloud.backendServices, err := C.Insert(cloud.backendServices, name, want, cloud.reliable);
      }
      if err != Nil {
        return;
      }
      existing, err := C.Fetch(cloud.backendServices, name, cloud.reliable);
      link := Link(namer, port.nodePort);
    }

    /** EnsureBackendService for all ports, collecting errors. The result is
        keyed by service name, so a later port replaces an earlier one of the
        same service. */
    method EnsureBackendService(lbName: string, ports: seq<ServicePort>, hcs: map<Port, C.Link>,
                                namedPorts: map<Port, string>, groups: seq<string>, force: bool)
      returns (services: map<string, C.Link>, err: Err, ghost wants: seq<C.Want<C.BackendService>>, ghost ok: bool)
      modifies cloud`backendServices
      ensures Progress(Job(namer, lbName, ports, hcs, namedPorts, groups, force, cloud.reliable),
                       old(cloud.backendServices), cloud.backendServices, |ports|, services, err, wants, ok)
    {
      hide Progress, TheWant;
      ghost var job := Job(namer, lbName, ports, hcs, namedPorts, groups, force, cloud.reliable);
      services, err, wants, ok := map[], Nil, [], true;
      ProgressStart(job, cloud.backendServices);
      for i := 0 to |ports|
        invariant Progress(job, old(cloud.backendServices), cloud.backendServices, i, services, err, wants, ok)
      {
        var p := ports[i];
        ghost var before := cloud.backendServices;
        var link, beErr := EnsureOne(lbName, p, hcs, namedPorts, groups, force, job);
        if !Supplied(hcs, namedPorts, p) {
          ProgressSkip(job, old(cloud.backendServices), before, i, services, err, wants, ok, beErr);
        } else {
          ProgressMore(job, old(cloud.backendServices), before, cloud.backendServices, i, services, err, wants, ok,
                       beErr);
          wants, ok := wants + [TheWant(job, p)], ok && beErr == Nil;
        }
        if beErr != Nil {
          err := Append(err, beErr);
          continue;
        }
        services := services[p.svcName := link];
      }
    }

    /** removeFromClusters for one port. */
    method RemoveOne(port: ServicePort, removeGroups: seq<string>) returns (err: Err)
      modifies cloud`backendServices
      ensures RemovedOne(namer.Name(BackendService(port.nodePort)), Elements(removeGroups),
                         old(cloud.backendServices), cloud.backendServices, err, cloud.reliable)
    {
      var name := namer.Name(BackendService(port.nodePort));
      var existing, getErr := C.Fetch(cloud.backendServices, name, cloud.reliable);
      if getErr != Nil {
        return Other;
      }
      var desired := DesiredWithoutClusters(existing.value.spec, removeGroups);
      cloud.backendServices, err :=
        C.Replace(cloud.backendServices, name, desired, Some(existing.value.fingerprint), cloud.reliable);
      if err != Nil {
        return;
      }
      existing, err := C.Fetch(cloud.backendServices, name, cloud.reliable);
    }

    /** RemoveFromClusters: drops the groups from every port's backend service. */
    method RemoveFromClusters(ports: seq<ServicePort>, removeGroups: seq<string>) returns (err: Err)
      modifies cloud`backendServices
      ensures RemovedFrom(namer, ports, |ports|, Elements(removeGroups), old(cloud.backendServices),
                          cloud.backendServices, err, cloud.reliable)
    {
      hide RemovedOne;
      err := Nil;
      for i := 0 to |ports|
        invariant RemovedFrom(namer, ports, i, Elements(removeGroups), old(cloud.backendServices),
                              cloud.backendServices, err, cloud.reliable)
      {
        ghost var before := cloud.backendServices;
        var beErr := RemoveOne(ports[i], removeGroups);
        RemovalStep(namer, ports, i, Elements(removeGroups), old(cloud.backendServices), before, cloud.backendServices,
                    err, beErr, cloud.reliable);
        err := Append(err, beErr);
      }
    }

    /** deleteBackendService for one port; a missing one is no error. */
    method DeleteOne(port: Port) returns (err: Err)
      modifies cloud`backendServices
      ensures C.Purged(old(cloud.backendServices), cloud.backendServices, namer.Name(BackendService(port)),
                       cloud.strict &&
                           C.BackendServiceInUse(cloud.urlMaps, namer.Name(BackendService(port))), err, cloud.reliable)
    {
      err := cloud.DeleteBackendService(namer.Name(BackendService(port)));
      if err == NotFound {
        err := Nil;
      }
    }

    /** DeleteBackendServices: the backend service of every port. */
    method DeleteBackendServices(ports: seq<ServicePort>) returns (err: Err)
      modifies cloud`backendServices
      ensures C.PurgedAll(old(cloud.backendServices), cloud.backendServices, PortNames(namer, ports), |ports|,
                          Busy(cloud.strict, old(cloud.backendServices), cloud.urlMaps), err, cloud.reliable)
    {
      hide C.PurgedAll, C.Purged, C.BackendServiceInUse, Namer.Name;
      err := Nil;
      ghost var names, busy := PortNames(namer, ports), Busy(cloud.strict, cloud.backendServices, cloud.urlMaps);
      C.PurgedNone(cloud.backendServices, names, busy, cloud.reliable);
      for i := 0 to |ports|
        invariant C.PurgedAll(old(cloud.backendServices), cloud.backendServices, names, i, busy, err, cloud.reliable)
      {
        ghost var before := cloud.backendServices;
        var e := DeleteOne(ports[i].nodePort);
        C.PurgedStep(old(cloud.backendServices), before, cloud.backendServices, names, i, busy,
                     cloud.strict && C.BackendServiceInUse(cloud.urlMaps, names[i]), err, e, cloud.reliable);
        err := Append(err, e);
      }
    }
  }
}
