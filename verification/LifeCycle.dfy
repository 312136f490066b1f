/** From nothing to nothing: creating a load balancer and deleting it again. */
module LifeCycle {
  import opened Prelude
  import opened Names
  import opened Ingress
  import opened Status
  import opened LoadBalancer
  import opened CreateRuns
  import opened Chains
  import opened DeleteRuns
  import Id = Idempotence
  import Su = CreateSuccess
  import G = GroupLinks
  import P = ProbePaths
  import C = Cloud
  import H = HealthChecks
  import B = BackendServices

  // ---------- Delete undoes create ----------

  lemma WantedChecks(job: H.Job, wants: seq<C.Want<C.HealthCheck>>, i: nat)
    requires H.WantsAmong(job, wants) && i < |wants|
    ensures wants[i].name in Elements(H.PortNames(job.namer, job.ports))
  {
    hide Namer.Name, Enumerates, P.PathInOrder, H.Desired;
    var want := wants[i];
    var j :| 0 <= j < |job.ports| && H.WantFor(job, want, job.ports[j]);
    assert H.PortNames(job.namer, job.ports)[j] == want.name;
  }

  lemma WantedServices(job: B.Job, wants: seq<C.Want<C.BackendService>>, i: nat)
    requires B.WantsAmong(job, wants) && i < |wants|
    ensures wants[i].name in Elements(B.PortNames(job.namer, job.ports))
  {
    hide Namer.Name, B.Desired, B.Supplied;
    var want := wants[i];
    var j :| 0 <= j < |job.ports| && B.WantFor(job, want, job.ports[j]);
    assert B.PortNames(job.namer, job.ports)[j] == want.name;
  }

  /** A create writes health checks and backend services of its ports only. */
  lemma HealthPorts(a: Args, t: C.Table<C.HealthCheck>, t': C.Table<C.HealthCheck>, inp: Inputs, hc: HealthPart)
    requires HealthStage(a, t, t', inp, hc)
    ensures forall k :: k in t' ==> Kept(t, t', k) || k in H.NameSet(a.Namer(), inp.ports)
  {
    hide Namer.Name, H.Probeable, H.Link, H.WantFor, H.WantsAmong, C.AllHold, C.Compatible, C.Wanted;
    forall k | k in t' && !Kept(t, t', k) ensures k in H.NameSet(a.Namer(), inp.ports) {
      var i :| 0 <= i < |hc.wants| && hc.wants[i].name == k;
      WantedChecks(HcJob(a, inp), hc.wants, i);
    }
  }

  lemma ServicePorts(a: Args, t: C.Table<C.BackendService>, t': C.Table<C.BackendService>, inp: Inputs,
                     hc: HealthPart, ig: GroupPart, be: BackendPart)
    requires BackendStage(a, t, t', inp, hc, ig, be)
    ensures forall k :: k in t' ==> Kept(t, t', k) || k in B.NameSet(a.Namer(), inp.ports)
  {
    BackendRecords(a, t, t', inp, hc, ig, be);
    hide Namer.Name, FlatMapped, Enumerates, B.ServiceMap, C.ReconciledAll, GroupFn, B.WantFor, B.WantsAmong,
         B.Supplied, B.OwnServices;
    forall k | k in t' && !Kept(t, t', k) ensures k in B.NameSet(a.Namer(), inp.ports) {
      var i :| 0 <= i < |be.wants| && be.wants[i].name == k && C.Holds(t', be.wants[i]);
      WantedServices(BeJob(a, inp, hc, ig, be.groups), be.wants, i);
    }
  }

  lemma OwnPorts(a: Args, s: C.Store, s': C.Store, err: Err, r: Run)
    requires CreateRun(a, s, s', err, r)
    ensures forall k :: k in s'.healthChecks ==>
              Kept(s.healthChecks, s'.healthChecks, k) || k in H.NameSet(a.Namer(), r.inp.ports)
    ensures forall k :: k in s'.backendServices ==>
              Kept(s.backendServices, s'.backendServices, k) || k in B.NameSet(a.Namer(), r.inp.ports)
  {
    hide HealthStage, GroupStage, BackendStage, UrlMapStage, HttpStage, HttpsStage, FirewallStage, AddressOf, NodePorts,
         H.NameSet, B.NameSet;
    if HealthStage(a, s.healthChecks, s'.healthChecks, r.inp, r.hc) {
      HealthPorts(a, s.healthChecks, s'.healthChecks, r.inp, r.hc);
    }
    if FullRun(a, s, s', err, r) {
      ServicePorts(a, s.backendServices, s'.backendServices, r.inp, r.hc, r.ig, r.be);
    }
  }

  lemma Undone<V>(t: C.Table<V>, t': C.Table<V>, own: set<string>)
    requires forall k :: k in t' ==> Kept(t, t', k) || k in own
    requires forall k :: k in t ==> k !in own && k in t'
    ensures t' - own == t
  {
  }

  lemma PortNamesAbsent(n: Namer, ports: seq<ServicePort>, s: C.Store)
    requires Absent(n, s)
    ensures forall k :: k in H.NameSet(n, ports) ==> k !in s.healthChecks
    ensures forall k :: k in B.NameSet(n, ports) ==> k !in s.backendServices
  {
    hide Namer.Name;
    forall k | k in H.NameSet(n, ports) ensures k !in s.healthChecks {
      var i :| 0 <= i < |ports| && H.PortNames(n, ports)[i] == k;
    }
    forall k | k in B.NameSet(n, ports) ensures k !in s.backendServices {
      var i :| 0 <= i < |ports| && B.PortNames(n, ports)[i] == k;
    }
  }

  /** Without the names of this load balancer, the store is the one before. */
  lemma OwnNamesAreAllThereIs(n: Namer, preShared: string, ports: seq<ServicePort>, s: C.Store, s': C.Store)
    requires Writes(n, preShared, s, s') && Absent(n, s)
    requires forall k :: k in s'.healthChecks ==> Kept(s.healthChecks, s'.healthChecks, k) || k in H.NameSet(n, ports)
    requires forall k :: k in s'.backendServices ==>
               Kept(s.backendServices, s'.backendServices, k) || k in B.NameSet(n, ports)
    ensures Remainder(n, ports, s') == s
  {
    PortNamesAbsent(n, ports, s);
    ProxiesUndone(n, preShared, s, s');
    OthersUndone(n, preShared, s, s');
    hide Namer.Name, Kept, H.NameSet, B.NameSet, WroteService, WroteUrlMap, WroteHttpProxy, WroteHttpsProxy, WroteRule,
         Absent;
    Undone(s.healthChecks, s'.healthChecks, H.NameSet(n, ports));
    Undone(s.backendServices, s'.backendServices, B.NameSet(n, ports));
  }

  lemma ProxiesUndone(n: Namer, preShared: string, s: C.Store, s': C.Store)
    requires Writes(n, preShared, s, s') && Absent(n, s)
    ensures s'.httpProxies - {n.Name(HttpProxy)} == s.httpProxies
    ensures s'.httpsProxies - {n.Name(HttpsProxy)} == s.httpsProxies
    ensures s'.forwardingRules - {n.Name(HttpRule), n.Name(HttpsRule)} == s.forwardingRules
  {
    hide Namer.Name, WroteService, WroteUrlMap, Kept;
    Undone(s.httpProxies, s'.httpProxies, {n.Name(HttpProxy)});
    Undone(s.httpsProxies, s'.httpsProxies, {n.Name(HttpsProxy)});
    Undone(s.forwardingRules, s'.forwardingRules, {n.Name(HttpRule), n.Name(HttpsRule)});
  }

  lemma OthersUndone(n: Namer, preShared: string, s: C.Store, s': C.Store)
    requires Writes(n, preShared, s, s') && Absent(n, s)
    ensures s'.urlMaps - {n.Name(UrlMap)} == s.urlMaps
    ensures s'.sslCertificates - {n.Name(SslCert)} == s.sslCertificates
    ensures s'.firewalls - {n.Name(Firewall)} == s.firewalls
  {
    hide Namer.Name, WroteService, WroteHttpProxy, WroteHttpsProxy, WroteRule, Kept;
    Undone(s.urlMaps, s'.urlMaps, {n.Name(UrlMap)});
    Undone(s.sslCertificates, s'.sslCertificates, {n.Name(SslCert)});
    Undone(s.firewalls, s'.firewalls, {n.Name(Firewall)});
  }

  /** Whatever a create on absent names did, complete or failed at any point: a
      delete with the same ports, in a cloud that refuses to delete what is in
      use, restores the store to what it was before. */
  lemma DeleteUndoesCreate(a: Args, b: Args, s: C.Store, s1: C.Store, s2: C.Store, err: Err, r: Run,
                           err': Err, ports: seq<ServicePort>, e: DeleteErrs)
    requires CreateRun(a, s, s1, err, r) && DeleteRun(b, s1, s2, err', ports, e)
    requires b.lbName == a.lbName && b.reliable && b.clients != {} && r.inp.ports == ports
    requires Absent(a.Namer(), s) && SelfContained(a.Namer(), s)
    ensures err' == Nil && s2 == s
  {
    hide CreateRun, DeleteRun, SelfContained, Absent, Writes, Kept, H.NameSet, B.NameSet, Remainder, Namer.Name;
    CreateWrites(a, s, s1, err, r);
    OwnPorts(a, s, s1, err, r);
    OwnNamesAreAllThereIs(a.Namer(), a.ing.preSharedCert, ports, s, s1);
    WritesKeepOwn(a.lbName, a.ing.preSharedCert, s, s1);
    SelfContainedMeansNoOutsideUse(b.Namer(), ports, s1);
    NoUseMeansNil(b, s1, s2, err', ports, e);
    NilDeleteIsComplete(b, s1, s2, ports, e);
  }

  // ---------- An example: the hypotheses can all be met ----------

  const PORT: Port := 30000

  function ExampleGroups(): Groups {
    [G.GroupLink("p" + "/" + "z", "g")]
  }

  function ExampleIngress(): Spec {
    Spec("ns", Some(Backend("svc", "80")), [], "ip", true, "", false)
  }

  function ExampleWorld(): World {
    World((c, be) => Some((PORT, "HTTP")),
          (c, p) => NoProbe,
          c => Some(ExampleGroups()),
          (zone, name) => Some(map[PORT := "port"]),
          group => Some(Instance(["tag"], ["net"])),
          name => Some("1.2.3.4"),
          c => None)
  }

  function ExamplePorts(): seq<ServicePort> {
    [ServicePort(PORT, "HTTP", "ns", "svc", "80")]
  }

  const EMPTY := C.Store(map[], map[], map[], map[], map[], map[], map[], map[])

  lemma ExampleNamedPorts()
    ensures ExampleWorld().NamedPorts(ExampleGroups()[0]) == Some(map[PORT := "port"])
  {
    assert !G.Contains("p" + "/" + "z", G.IG_SEPARATOR);
    G.GroupLinkRoundTrip("p", "z", "g");
    hide G.GroupLink, G.ZoneAndName;
  }

  lemma ExampleGroupReady()
    ensures Su.ReadyGroup(ExampleWorld(), ExampleGroups(), ExamplePorts())
  {
    ExampleNamedPorts();
    hide World.NamedPorts, ExampleGroups;
    assert PORT in map[PORT := "port"];
    assert ExampleWorld().instance(ExampleGroups()[0]) == Some(Instance(["tag"], ["net"]));
  }

  lemma ExampleNodePorts(c: string)
    ensures NodePorts(ExampleWorld(), c, ExampleIngress()) == ExamplePorts()
    ensures MentionedBackends(ExampleIngress()) == [Backend("svc", "80")]
  {
    var w, be := ExampleWorld(), Backend("svc", "80");
    assert RuleBackends([]) == [];
    assert MentionedBackends(ExampleIngress()) == [be];
    assert [be][..0] == [];
    assert Resolved(w, c, "ns", []) == [];
    assert w.ServicePortOf(c, "ns", be) == Some(ExamplePorts()[0]);
    assert Resolved(w, c, "ns", [be]) == Resolved(w, c, "ns", []) + [ExamplePorts()[0]];
  }

  lemma ExampleFits(a: Args)
    requires a.ing == ExampleIngress() && a.w == ExampleWorld() && a.clients == {"c"}
    ensures Su.Complete(a, EMPTY, ExamplePorts()) && Id.Steady(a, ExamplePorts())
    ensures Id.SameContent(a, ExamplePorts()) && Id.OneRoute(a, ExamplePorts())
    ensures Absent(a.Namer(), EMPTY) && SelfContained(a.Namer(), EMPTY)
  {
    hide Namer.Name, World.NamedPorts;
    ExampleNodePorts("c");
    ExampleGroupReady();
    hide NodePorts, MentionedBackends, Su.ReadyGroup;
    assert a.w.groups("c") == Some(ExampleGroups());
  }

  /** One cluster, one service, an empty project: the load balancer is created;
      creating it again changes nothing; deleting it leaves nothing. */
  method WalkThrough(codec: Codec, hash: string -> string) returns (created: Err, again: Err, deleted: Err)
    ensures created == Nil && again == Nil && deleted == Nil
  {
    hide CreateRun, DeleteRun;
    var cloud := new C.Cloud(true, true, EMPTY);
    var ing, w := ExampleIngress(), ExampleWorld();
    var syncer := new Syncer("lb", {"c"}, cloud, codec, hash);
    ghost var run, run', ports, errs;
    created, run := syncer.CreateLoadBalancer(ing, w, false, ["c"]);
    ghost var s1 := cloud.Snapshot();
    again, run' := syncer.CreateLoadBalancer(ing, w, false, ["c"]);
    ghost var s2 := cloud.Snapshot();
    deleted, ports, errs := syncer.DeleteLoadBalancer(ing, w, false);
    ExampleRun(syncer.ArgsFor(["c"], ing, w, false), syncer.ArgsFor([], ing, w, false), s1, s2, cloud.Snapshot(),
               created, again, deleted, run, run', ports, errs);
    assert cloud.Snapshot() == EMPTY;
  }

  lemma ExampleRun(a: Args, b: Args, s1: C.Store, s2: C.Store, s3: C.Store, created: Err, again: Err, deleted: Err,
                   run: Run, run': Run,
                   ports: seq<ServicePort>, errs: DeleteErrs)
    requires a.ing == ExampleIngress() && a.w == ExampleWorld() && a.clients == {"c"} && !a.force && a.reliable
    requires b == a.(clusters := [])
    requires CreateRun(a, EMPTY, s1, created, run) && CreateRun(a, s1, s2, again, run')
    requires DeleteRun(b, s2, s3, deleted, ports, errs)
    ensures created == Nil && again == Nil && s2 == s1 && deleted == Nil && s3 == EMPTY
  {
    hide CreateRun, DeleteRun, Su.Complete, Id.Steady, Id.OneRoute, Id.SameContent, Absent, SelfContained,
         Id.HttpSettled, Id.HttpsSettled,
         CompleteChain, ExampleIngress, ExampleWorld, ExamplePorts;
    ExampleFits(a);
    Su.FreshCreateSucceeds(a, EMPTY, s1, ExamplePorts(), created, run);
    Id.CreateIsIdempotent(a, a, EMPTY, s1, s2, ExamplePorts(), again, run, run');
    Id.SettledStarts(a, EMPTY, s1, run);
    Id.RepeatsAlwaysSucceed(a, a, EMPTY, s1, ExamplePorts(), run);
    ExamplePortsUsed(a, b, EMPTY, s1, s3, run, deleted, ports, errs);
    DeleteUndoesCreate(a, b, EMPTY, s1, s3, created, run, deleted, ports, errs);
  }

  lemma ExamplePortsUsed(a: Args, b: Args, s: C.Store, s1: C.Store, s2: C.Store, r: Run, err: Err,
                         ports: seq<ServicePort>, e: DeleteErrs)
    requires a.ing == b.ing == ExampleIngress() && a.w == b.w == ExampleWorld() && a.clients == b.clients == {"c"}
    requires CreateRun(a, s, s1, Nil, r) && DeleteRun(b, s1, s2, err, ports, e)
    ensures r.inp.ports == ports
  {
    hide HealthStage, GroupStage, BackendStage, UrlMapStage, HttpStage, HttpsStage, FirewallStage, NodePorts,
         FrontDeleted, BackDeleted, AddressOf;
  }
}
