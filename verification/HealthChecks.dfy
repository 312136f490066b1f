/** Health checks: one per node port. */
module HealthChecks {
  import opened Prelude
  import opened Names
  import opened Ingress
  import opened ProbePaths
  import C = Cloud

  const DEFAULT_HEALTH_CHECK_INTERVAL := 60
  const DEFAULT_TIMEOUT := 60
  const DEFAULT_HEALTHY_THRESHOLD := 1
  const DEFAULT_UNHEALTHY_THRESHOLD := 10

  function Link(namer: Namer, port: Port): C.Link {
    C.SelfLink(C.HealthChecks, namer.Name(HealthCheck(port)))
  }

  /** desiredHealthCheck; protocols other than HTTP and HTTPS are refused. */
  function Desired(lbName: string, port: ServicePort, path: string): Option<C.HealthCheck> {
    if port.protocol != "HTTP" && port.protocol != "HTTPS" then None
    else
      var check := C.HttpCheck(port.nodePort, path, "NONE");
      Some(C.HealthCheck(
        "Health check for service " + port.Description() + " as part of kubernetes multicluster loadbalancer " + lbName,
        DEFAULT_HEALTH_CHECK_INTERVAL,
        DEFAULT_TIMEOUT,
        DEFAULT_HEALTHY_THRESHOLD,
        DEFAULT_UNHEALTHY_THRESHOLD,
        port.protocol,
        "compute#healthCheck",
        if port.protocol == "HTTP" then Some(check) else None,
        if port.protocol == "HTTPS" then Some(check) else None))
  }

  /** What one call of EnsureHealthCheck is asked to do. */
  datatype Job = Job(namer: Namer, lbName: string, ports: seq<ServicePort>, w: World, clusters: set<string>,
                     force: bool, reliable: bool)

  /** `want` is the health check for this port on a path that some order of
      visiting the clusters yields. */
  ghost predicate WantFor(job: Job, want: C.Want<C.HealthCheck>, p: ServicePort) {
    && want.name == job.namer.Name(HealthCheck(p.nodePort))
    && exists order ::
         && Enumerates(order, job.clusters)
         && PathInOrder(order, job.w.Probes(p)).Some?
         && Desired(job.lbName, p, PathInOrder(order, job.w.Probes(p)).value) == Some(want.spec)
  }

  /** One wanted health check for each of the first `n` ports, in order. */
  ghost predicate WantsFor(job: Job, wants: seq<C.Want<C.HealthCheck>>, n: nat) {
    |wants| == n <= |job.ports| && forall i :: 0 <= i < n ==> WantFor(job, wants[i], job.ports[i])
  }

  /** Every wanted health check is for one of the ports. */
  ghost predicate WantsAmong(job: Job, wants: seq<C.Want<C.HealthCheck>>) {
    forall i :: 0 <= i < |wants| ==> ForSomePort(job, wants[i])
  }

  ghost predicate ForSomePort(job: Job, want: C.Want<C.HealthCheck>) {
    exists j :: 0 <= j < |job.ports| && WantFor(job, want, job.ports[j])
  }

  /** The state of EnsureHealthCheck after `n` ports: what became of the table,
      which links were collected and whether an error was. */
  ghost predicate Progress(job: Job, t: C.Table<C.HealthCheck>, t': C.Table<C.HealthCheck>, n: nat,
                           hcs: map<Port, C.Link>, err: Err, wants: seq<C.Want<C.HealthCheck>>, ok: bool) {
    && C.ReconciledAll(t, t', wants, job.force, ok, job.reliable)
    && WantsAmong(job, wants)
    && |wants| <= n <= |job.ports|
    && (err == Nil <==> ok && |wants| == n)
    && (|wants| == n ==> WantsFor(job, wants, n))
    && ((forall i :: 0 <= i < n ==> Probeable(job.w, job.clusters, job.ports[i])) ==> |wants| == n)
    && (forall k :: k in hcs ==> hcs[k] == Link(job.namer, k))
    && (err == Nil ==> forall i :: 0 <= i < n ==> job.ports[i].nodePort in hcs)
  }

  /** What one round does: it ensures the wanted check, or there is none. */
  ghost predicate Round(job: Job, t: C.Table<C.HealthCheck>, t': C.Table<C.HealthCheck>, p: ServicePort,
                        link: C.Link, err: Err, want: Option<C.Want<C.HealthCheck>>) {
    && (want.None? ==> err != Nil && t' == t && !Probeable(job.w, job.clusters, p))
    && (want.Some? ==>
          && WantFor(job, want.value, p)
          && C.Reconciled(t, t', want.value.name, want.value.spec, job.force, err, job.reliable))
    && (err == Nil ==> link == Link(job.namer, p.nodePort))
  }

  lemma ListedAreAmong(job: Job, wants: seq<C.Want<C.HealthCheck>>, n: nat)
    requires WantsFor(job, wants, n)
    ensures WantsAmong(job, wants)
  {
    forall i | 0 <= i < |wants| ensures ForSomePort(job, wants[i]) {
      assert WantFor(job, wants[i], job.ports[i]);
    }
  }

  lemma ProgressStart(job: Job, t: C.Table<C.HealthCheck>)
    ensures Progress(job, t, t, 0, map[], Nil, [], true)
  {
    C.ReconciledNone(t, job.force, job.reliable);
  }

  /** A round for a port that cannot be checked adds only an error. */
  lemma ProgressSkip(job: Job, t: C.Table<C.HealthCheck>, t1: C.Table<C.HealthCheck>, n: nat,
                     hcs: map<Port, C.Link>, err: Err, wants: seq<C.Want<C.HealthCheck>>, ok: bool, hcErr: Err)
    requires Progress(job, t, t1, n, hcs, err, wants, ok)
    requires n < |job.ports| && hcErr != Nil && !Probeable(job.w, job.clusters, job.ports[n])
    ensures Progress(job, t, t1, n + 1, hcs, Append(err, hcErr), wants, ok)
  {
    hide C.ReconciledAll, WantFor, WantsAmong, WantsFor, Probeable, Link;
  }

  lemma ProgressMore(job: Job, t: C.Table<C.HealthCheck>, t1: C.Table<C.HealthCheck>, t2: C.Table<C.HealthCheck>,
                     n: nat,
                     hcs: map<Port, C.Link>, err: Err, wants: seq<C.Want<C.HealthCheck>>, ok: bool,
                     hcErr: Err, want: C.Want<C.HealthCheck>)
    requires Progress(job, t, t1, n, hcs, err, wants, ok)
    requires n < |job.ports| && WantFor(job, want, job.ports[n])
    requires C.Reconciled(t1, t2, want.name, want.spec, job.force, hcErr, job.reliable)
    ensures var p := job.ports[n].nodePort;
            Progress(job, t, t2, n + 1, if hcErr == Nil then hcs[p := Link(job.namer, p)] else hcs, Append(err, hcErr),
                     wants + [want], ok && hcErr == Nil)
  {
    hide C.ReconciledAll, C.Reconciled, WantFor, WantsAmong, WantsFor, Probeable, Link;
    C.ReconciledStep(t, t1, t2, wants, want, job.force, ok, hcErr, job.reliable);
    WantsStep(job, wants, want, n);
  }

  lemma WantsStep(job: Job, wants: seq<C.Want<C.HealthCheck>>, want: C.Want<C.HealthCheck>, n: nat)
    requires n < |job.ports| && WantFor(job, want, job.ports[n]) && WantsAmong(job, wants)
    ensures WantsAmong(job, wants + [want])
    ensures WantsFor(job, wants, n) ==> WantsFor(job, wants + [want], n + 1)
  {
    hide WantFor;
    assert ForSomePort(job, want);
    hide ForSomePort;
  }

  /** The clusters agree on how to probe this port, and it can be probed. */
  ghost predicate Probeable(w: World, clusters: set<string>, p: ServicePort) {
    && NoProbeError(clusters, w.Probes(p)) && NoEmptyPath(clusters, w.Probes(p)) && PathsAgree(clusters, w.Probes(p))
    && (p.protocol == "HTTP" || p.protocol == "HTTPS")
  }

  /** Where the clusters agree there is only one health check to want. */
  lemma WantUnique(job: Job, a: C.Want<C.HealthCheck>, b: C.Want<C.HealthCheck>, p: ServicePort)
    requires Probeable(job.w, job.clusters, p)
    requires WantFor(job, a, p) && WantFor(job, b, p)
    ensures a == b
  {
    var probes := job.w.Probes(p);
    var o1 :| Enumerates(o1, job.clusters) && PathInOrder(o1, probes).Some?
      && Desired(job.lbName, p, PathInOrder(o1, probes).value) == Some(a.spec);
    var o2 :| Enumerates(o2, job.clusters) && PathInOrder(o2, probes).Some?
      && Desired(job.lbName, p, PathInOrder(o2, probes).value) == Some(b.spec);
    SameForAllOrders(job.clusters, probes, o1, o2);
  }

  /** The ports lead to the same health check, if they are the same node port. */
  ghost predicate SameWants(w: World, clusters: set<string>, p: ServicePort, q: ServicePort) {
    && p.protocol == q.protocol && p.Description() == q.Description()
    && forall order :: Enumerates(order, clusters) ==>
          PathInOrder(order, w.Probes(p)) == PathInOrder(order, w.Probes(q))
  }

  lemma WantCarries(job: Job, want: C.Want<C.HealthCheck>, p: ServicePort, q: ServicePort)
    requires WantFor(job, want, p) && p.nodePort == q.nodePort && SameWants(job.w, job.clusters, p, q)
    ensures WantFor(job, want, q)
  {
    hide PathInOrder, Namer.Name, ServicePort.Description;
  }

  lemma Cancel(prefix: string, x: string, y: string, suffix: string)
    requires prefix + x + suffix == prefix + y + suffix
    ensures x == y
  {
    var s, t := prefix + x + suffix, prefix + y + suffix;
    assert |s| == |t|;
    assert x == s[|prefix|..|s| - |suffix|] && y == t[|prefix|..|t| - |suffix|];
  }

  /** Conversely, ports that want the same health check have the same content. */
  lemma EqualWants(job: Job, want: C.Want<C.HealthCheck>, p: ServicePort, q: ServicePort)
    requires WantFor(job, want, p) && WantFor(job, want, q) && p.nodePort == q.nodePort
    requires Probeable(job.w, job.clusters, p) && Probeable(job.w, job.clusters, q)
    ensures SameWants(job.w, job.clusters, p, q)
  {
    var ps, qs := job.w.Probes(p), job.w.Probes(q);
    var o1 :| Enumerates(o1, job.clusters) && PathInOrder(o1, ps).Some?
      && Desired(job.lbName, p, PathInOrder(o1, ps).value) == Some(want.spec);
    var o2 :| Enumerates(o2, job.clusters) && PathInOrder(o2, qs).Some?
      && Desired(job.lbName, q, PathInOrder(o2, qs).value) == Some(want.spec);
    EqualSpecs(job.lbName, p, q, PathInOrder(o1, ps).value, PathInOrder(o2, qs).value);
    forall order | Enumerates(order, job.clusters) ensures PathInOrder(order, ps) == PathInOrder(order, qs) {
      SameForAllOrders(job.clusters, ps, order, o1);
      SameForAllOrders(job.clusters, qs, order, o2);
    }
  }

  lemma EqualSpecs(lbName: string, p: ServicePort, q: ServicePort, x: string, y: string)
    requires Desired(lbName, p, x).Some? && Desired(lbName, p, x) == Desired(lbName, q, y)
    ensures p.protocol == q.protocol && p.Description() == q.Description() && x == y
  {
    var suffix := " as part of kubernetes multicluster loadbalancer " + lbName;
    var hp, hq := Desired(lbName, p, x).value, Desired(lbName, q, y).value;
    hide ServicePort.Description;
    assert hp.description == "Health check for service " + p.Description() + suffix;
    assert hq.description == "Health check for service " + q.Description() + suffix;
    Cancel("Health check for service ", p.Description(), q.Description(), suffix);
  }

  /** The names of the health checks of these ports. */
  function PortNames(namer: Namer, ports: seq<ServicePort>): (names: seq<string>)
    ensures |names| == |ports| && forall i :: 0 <= i < |ports| ==>
              names[i] == namer.Name(HealthCheck(ports[i].nodePort))
  {
    Mapped((p: ServicePort) => namer.Name(HealthCheck(p.nodePort)), ports)
  }

  ghost function NameSet(namer: Namer, ports: seq<ServicePort>): set<string> {
    Elements(PortNames(namer, ports))
  }

  /** The names another resource refers to, which a strict cloud protects. */
  ghost function Busy(strict: bool, t: C.Table<C.HealthCheck>, users: C.Table<C.BackendService>): set<string> {
    set k | k in t && strict && C.HealthCheckInUse(users, k)
  }

  class Syncer {
    const namer: Namer
    const cloud: C.Cloud

    constructor (namer: Namer, cloud: C.Cloud)
      ensures this.namer == namer && this.cloud == cloud
    {
      this.namer, this.cloud := namer, cloud;
    }

    /** ensureHealthCheck for one port. */
    method EnsureOne(lbName: string, port: ServicePort, path: string, force: bool) returns (link: C.Link, err: Err)
      modifies cloud`healthChecks
      ensures var want := Desired(lbName, port, path);
              if want.None? then err != Nil && cloud.healthChecks == old(cloud.healthChecks)
              else C.Reconciled(old(cloud.healthChecks), cloud.healthChecks, namer.Name(HealthCheck(port.nodePort)),
                                want.value, force, err, cloud.reliable)
      ensures err == Nil ==> link == Link(namer, port.nodePort)
    {
      link := C.NoLink;
      var want := Desired(lbName, port, path);
      if want.None? {
        return C.NoLink, Other;
      }
      var name := namer.Name(HealthCheck(port.nodePort));
      var existing, getErr := C.Fetch(cloud.healthChecks, name, cloud.reliable);
      if getErr == Nil {
        if existing.value.spec == want.value {
          return Link(namer, port.nodePort), Nil;
        }
        if !force {
          return C.NoLink, Other;
        }
        cloud.healthChecks, err := C.Replace(cloud.healthChecks, name, want.value, None, cloud.reliable);
      } else {
        cloud.healthChecks, err := C.Insert(cloud.healthChecks, name, want.value, cloud.reliable);
      }
      if err != Nil {
        return;
      }
      existing, err := C.Fetch(cloud.healthChecks, name, cloud.reliable);
      link := Link(namer, port.nodePort);
    }

    /** One round of EnsureHealthCheck: find the path, ensure the check. */
    method EnsurePort(lbName: string, p: ServicePort, w: World, clusters: set<string>, force: bool, ghost job: Job)
      returns (link: C.Link, err: Err, ghost want: Option<C.Want<C.HealthCheck>>)
      requires job == Job(namer, lbName, job.ports, w, clusters, force, cloud.reliable)
      modifies cloud`healthChecks
      ensures Round(job, old(cloud.healthChecks), cloud.healthChecks, p, link, err, want)
    {
      var path, pathErr, order := GetHealthCheckPath(clusters, w.Probes(p));
      want := None;
      if pathErr != Nil {
        return C.NoLink, Append(Nil, pathErr), want;
      }
      link, err := EnsureOne(lbName, p, path, force);
      if Desired(lbName, p, path).Some? {
        want := Some(C.Want(namer.Name(HealthCheck(p.nodePort)), Desired(lbName, p, path).value));
      }
    }

    /** EnsureHealthCheck for all ports, collecting errors. Returns the links of
        the ensured health checks by node port. */
    method EnsureHealthCheck(lbName: string, ports: seq<ServicePort>, w: World, clusters: set<string>, force: bool)
      returns (hcs: map<Port, C.Link>, err: Err, ghost wants: seq<C.Want<C.HealthCheck>>, ghost ok: bool)
      modifies cloud`healthChecks
      ensures Progress(Job(namer, lbName, ports, w, clusters, force, cloud.reliable),
                       old(cloud.healthChecks), cloud.healthChecks, |ports|, hcs, err, wants, ok)
    {
      hide Progress, WantFor, C.Reconciled, Probeable;
      ghost var job := Job(namer, lbName, ports, w, clusters, force, cloud.reliable);
      hcs, err, wants, ok := map[], Nil, [], true;
      ProgressStart(job, cloud.healthChecks);
      for i := 0 to |ports|
        invariant Progress(job, old(cloud.healthChecks), cloud.healthChecks, i, hcs, err, wants, ok)
      {
        var p := ports[i];
        ghost var before := cloud.healthChecks;
        var link, hcErr, want := EnsurePort(lbName, p, w, clusters, force, job);
        if want.None? {
          ProgressSkip(job, old(cloud.healthChecks), before, i, hcs, err, wants, ok, hcErr);
        } else {
          ProgressMore(job, old(cloud.healthChecks), before, cloud.healthChecks, i, hcs, err, wants, ok, hcErr,
                       want.value);
          wants, ok := wants + [want.value], ok && hcErr == Nil;
        }
        if hcErr != Nil {
          err := Append(err, hcErr);
          continue;
        }
        hcs := hcs[p.nodePort := link];
      }
    }

    /** deleteHealthCheck for one port; a missing one is no error. */
    method DeleteOne(port: Port) returns (err: Err)
      modifies cloud`healthChecks
      ensures C.Purged(old(cloud.healthChecks), cloud.healthChecks, namer.Name(HealthCheck(port)),
                       cloud.strict &&
                           C.HealthCheckInUse(cloud.backendServices,
                                              namer.Name(HealthCheck(port))), err, cloud.reliable)
    {
      err := cloud.DeleteHealthCheck(namer.Name(HealthCheck(port)));
      if err == NotFound {
        err := Nil;
      }
    }

    /** DeleteHealthChecks: the health check of every port. */
    method DeleteHealthChecks(ports: seq<ServicePort>) returns (err: Err)
      modifies cloud`healthChecks
      ensures C.PurgedAll(old(cloud.healthChecks), cloud.healthChecks, PortNames(namer, ports), |ports|,
                          Busy(cloud.strict, old(cloud.healthChecks), cloud.backendServices), err, cloud.reliable)
    {
      hide C.PurgedAll, C.Purged, C.HealthCheckInUse, Namer.Name;
      err := Nil;
      ghost var names, busy := PortNames(namer, ports), Busy(cloud.strict, cloud.healthChecks, cloud.backendServices);
      C.PurgedNone(cloud.healthChecks, names, busy, cloud.reliable);
      for i := 0 to |ports|
        invariant C.PurgedAll(old(cloud.healthChecks), cloud.healthChecks, names, i, busy, err, cloud.reliable)
      {
        ghost var before := cloud.healthChecks;
        var e := DeleteOne(ports[i].nodePort);
        C.PurgedStep(old(cloud.healthChecks), before, cloud.healthChecks, names, i, busy,
                     cloud.strict && C.HealthCheckInUse(cloud.backendServices, names[i]), err, e, cloud.reliable);
        err := Append(err, e);
      }
    }
  }
}
