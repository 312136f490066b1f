/** What a create does about records that changed since the last one: a firewall
    priority that someone set, and a certificate that was renewed. */
module Drift {
  import opened Prelude
  import opened Names
  import opened Ingress
  import opened LoadBalancer
  import opened CreateRuns
  import opened Chains
  import opened DeleteRuns
  import opened Idempotence
  import opened Histories
  import C = Cloud
  import H = HealthChecks
  import T = TargetProxies
  import S = SslCerts
  import R = ForwardingRules
  import F = FirewallRules

  // ---------- A changed firewall priority ----------

  /** The table after someone set the priority of one rule. */
  function Prioritized(t: C.Table<C.Firewall>, name: string, p: int): C.Table<C.Firewall> {
    if name in t then t[name := t[name].(spec := t[name].spec.(priority := p))] else t
  }

  /** A priority the match function does not see. */
  predicate Forgiven(p: int) {
    p == 0 || p == 1000
  }

  /** The firewall stage of a later create: without force it succeeds if and only
      if the priority is the default or none, and with force it writes the default
      back. */
  lemma PriorityStage(a: Args, b: Args, t: C.Table<C.Firewall>, t1: C.Table<C.Firewall>, t2: C.Table<C.Firewall>,
                      p: int, r: Run, r': Run)
    requires FirewallStage(a, t, t1, r.inp, r.ig, r.fw) && r.fw.err == Nil && SameInputs(a, b) && b.reliable
    requires FirewallStage(b, Prioritized(t1, a.Namer().Name(Firewall), p), t2, r'.inp, r'.ig, r'.fw)
    requires r'.inp.ports == r.inp.ports && r'.ig.igs == r.ig.igs
    ensures var name := a.Namer().Name(Firewall);
            && name in t1 && name in t2
            && (r'.fw.err == Nil <==> b.force || Forgiven(p))
            && (!b.force || Forgiven(p) ==> t2 == Prioritized(t1, name, p))
            && (b.force && !Forgiven(p) ==> t2[name].spec == t1[name].spec.(priority := 1000))
  {
    hide Namer.Name, F.TagsKnown, F.OnNetwork;
    F.WantedByEither(FwJob(b, r'.inp, r'.ig), FwJob(a, r.inp, r.ig), r'.fw.want.value);
    F.WantedUnique(FwJob(a, r.inp, r.ig), r.fw.want.value, r'.fw.want.value);
    hide Enumerates, Mapped, F.TagOf;
  }

  /** The run that would have been, had the priority not been touched: only its
      firewall stage differs, and that stage finds nothing to do. */
  lemma Untouched(a: Args, b: Args, s: C.Store, s1: C.Store, s2: C.Store, p: int, err: Err, r: Run,
                  r': Run) returns (err0: Err, r0: Run)
    requires FullRun(a, s, s1, Nil, r) && Again(a, b)
    requires FullRun(b, s1.(firewalls := Prioritized(s1.firewalls, a.Namer().Name(Firewall), p)), s2, err, r')
    requires r'.inp.ports == r.inp.ports && r'.ig.igs == r.ig.igs
    ensures FullRun(b, s1, s2.(firewalls := s1.firewalls), err0, r0) && r0.um == r'.um
    ensures err == Nil <==> err0 == Nil && r'.fw.err == Nil
  {
    hide FullRun, FirewallStage, Prioritized, Namer.Name, NoErrors;
    FirewallStages(a, b, s, s1, s2, p, err, r, r');
    r0 := r'.(fw := FirewallPart(Nil, r.fw.want));
    err0 := if NoErrors(r0) then Nil else Other;
    OtherFirewall(b, s1.(firewalls := Prioritized(s1.firewalls, a.Namer().Name(Firewall), p)), s2, err, r',
                  s1.firewalls, s1.firewalls, r0.fw);
  }

  lemma FirewallStages(a: Args, b: Args, s: C.Store, s1: C.Store, s2: C.Store, p: int, err: Err, r: Run, r': Run)
    requires FullRun(a, s, s1, Nil, r) && Again(a, b)
    requires FullRun(b, s1.(firewalls := Prioritized(s1.firewalls, a.Namer().Name(Firewall), p)), s2, err, r')
    requires r'.inp.ports == r.inp.ports && r'.ig.igs == r.ig.igs
    ensures FirewallStage(b, s1.firewalls, s1.firewalls, r'.inp, r'.ig, FirewallPart(Nil, r.fw.want))
    ensures err == Nil <==> NoErrors(r'.(fw := FirewallPart(Nil, r.fw.want))) && r'.fw.err == Nil
  {
    hide HealthStage, GroupStage, BackendStage, UrlMapStage, HttpStage, HttpsStage, FirewallStage, InputStage,
         Namer.Name, Prioritized;
    IdleFirewall(a, b, s.firewalls, s1.firewalls, r, r');
  }

  /** The firewall stage can be exchanged: no other stage looks at it. */
  lemma OtherFirewall(b: Args, s: C.Store, s': C.Store, err: Err, r: Run, t: C.Table<C.Firewall>,
                      t': C.Table<C.Firewall>, fw: FirewallPart)
    requires FullRun(b, s, s', err, r) && FirewallStage(b, t, t', r.inp, r.ig, fw)
    ensures FullRun(b, s.(firewalls := t), s'.(firewalls := t'), if NoErrors(r.(fw := fw)) then Nil
                    else Other, r.(fw := fw))
  {
    hide HealthStage, GroupStage, BackendStage, UrlMapStage, HttpStage, HttpsStage, FirewallStage, InputStage, NoErrors;
  }

  lemma IdleFirewall(a: Args, b: Args, t: C.Table<C.Firewall>, t1: C.Table<C.Firewall>, r: Run, r': Run)
    requires FirewallStage(a, t, t1, r.inp, r.ig, r.fw) && r.fw.err == Nil && Again(a, b)
    requires r'.inp.ports == r.inp.ports && r'.ig.igs == r.ig.igs
    ensures FirewallStage(b, t1, t1, r'.inp, r'.ig, FirewallPart(Nil, r.fw.want))
  {
    hide Namer.Name, F.TagsKnown, F.Fill, F.Desired, Enumerates, Mapped, F.TagOf;
  }

  /** After a successful create and a change of the firewall priority to `p`, the
      same create without force leaves everything as it is, and returns no error
      if and only if `p` is the default or none and it would have returned none
      without the change. So a priority that a user set is not fine. */
  lemma PriorityDecides(a: Args, b: Args, s: C.Store, s1: C.Store, s2: C.Store, ports: seq<ServicePort>, p: int,
                        err: Err, r: Run, r': Run)
    requires CreateRun(a, s, s1, Nil, r) && Again(a, b) && Steady(a, ports)
    requires CreateRun(b, s1.(firewalls := Prioritized(s1.firewalls, a.Namer().Name(Firewall), p)), s2, err, r')
    ensures s2 == s1.(firewalls := Prioritized(s1.firewalls, a.Namer().Name(Firewall), p))
    ensures err == Nil <==>
            Forgiven(p) && SameContent(a, ports) && SameOrder(b, s1, r'.um) && HttpSettled(a, s, r.inp.ip) &&
                HttpsSettled(a, s, r.inp.ip)
  {
    hide FullRun, H.SameWants, NodePorts, H.Probeable, GroupsOf, HttpSettled, HttpsSettled, Prioritized, SameOrder,
         SameContent, Forgiven, Namer.Name;
    var drifted := s1.(firewalls := Prioritized(s1.firewalls, a.Namer().Name(Firewall), p));
    ReachesTheEnd(a, b, s, s1, drifted, s2, ports, err, r, r');
    FirewallPartOf(a, b, s, s1, s2, p, err, r, r');
    var err0, r0 := Untouched(a, b, s, s1, s2, p, err, r, r');
    CreateIsIdempotent(a, b, s, s1, s2.(firewalls := s1.firewalls), ports, err0, r, r0);
  }

  lemma FirewallPartOf(a: Args, b: Args, s: C.Store, s1: C.Store, s2: C.Store, p: int, err: Err, r: Run, r': Run)
    requires FullRun(a, s, s1, Nil, r) && SameInputs(a, b) && b.reliable
    requires FullRun(b, s1.(firewalls := Prioritized(s1.firewalls, a.Namer().Name(Firewall), p)), s2, err, r')
    requires r'.inp.ports == r.inp.ports && r'.ig.igs == r.ig.igs
    ensures var name := a.Namer().Name(Firewall);
            && name in s1.firewalls && name in s2.firewalls
            && (r'.fw.err == Nil <==> b.force || Forgiven(p))
            && (!b.force || Forgiven(p) ==> s2.firewalls == Prioritized(s1.firewalls, name, p))
            && (b.force && !Forgiven(p) ==>
                  s2.firewalls[name].spec == s1.firewalls[name].spec.(priority := 1000))
  {
    hide HealthStage, GroupStage, BackendStage, UrlMapStage, HttpStage, HttpsStage, FirewallStage, InputStage,
         Namer.Name, Prioritized, Forgiven;
    PriorityStage(a, b, s.firewalls, s1.firewalls, s2.firewalls, p, r, r');
  }

  /** The same create with force takes the user's priority back. */
  lemma ForceResetsPriority(a: Args, b: Args, s: C.Store, s1: C.Store, s2: C.Store, ports: seq<ServicePort>, p: int,
                            err: Err, r: Run, r': Run)
    requires CreateRun(a, s, s1, Nil, r) && SameInputs(a, b) && b.force && b.reliable && Steady(a, ports)
    requires !Forgiven(p)
    requires CreateRun(b, s1.(firewalls := Prioritized(s1.firewalls, a.Namer().Name(Firewall), p)), s2, err, r')
    ensures var name := a.Namer().Name(Firewall);
            && name in s1.firewalls && name in s2.firewalls
            && s2.firewalls[name].spec == s1.firewalls[name].spec.(priority := 1000)
  {
    hide FullRun, NodePorts, H.Probeable, GroupsOf, Prioritized, Namer.Name;
    var drifted := s1.(firewalls := Prioritized(s1.firewalls, a.Namer().Name(Firewall), p));
    ReachesTheEnd(a, b, s, s1, drifted, s2, ports, err, r, r');
    FirewallPartOf(a, b, s, s1, s2, p, err, r, r');
  }

  /** At priority 500 every unforced create fails. */
  lemma Priority500(a: Args, b: Args, s: C.Store, s1: C.Store, s2: C.Store, ports: seq<ServicePort>, err: Err, r: Run,
                    r': Run)
    requires CreateRun(a, s, s1, Nil, r) && Again(a, b) && Steady(a, ports)
    requires CreateRun(b, s1.(firewalls := Prioritized(s1.firewalls, a.Namer().Name(Firewall), 500)), s2, err, r')
    ensures err != Nil && s2.firewalls == Prioritized(s1.firewalls, a.Namer().Name(Firewall), 500)
  {
    hide CreateRun, Again, Steady, SameOrder, SameContent, HttpSettled, HttpsSettled, Prioritized;
    PriorityDecides(a, b, s, s1, s2, ports, 500, err, r, r');
  }

  // ---------- A renewed certificate ----------

  /** The load balancer's own certificate is stored, and its HTTPS proxy uses it. */
  ghost predicate OwnCertInUse(n: Namer, s: C.Store) {
    && n.Name(SslCert) in s.sslCertificates && n.Name(HttpsProxy) in s.httpsProxies
    && S.OwnLink(n) in s.httpsProxies[n.Name(HttpsProxy)].spec.sslCertificates
  }

  /** That is how a successful create leaves a load balancer with a secret. */
  lemma ServedMeansInUse(a: Args, s: C.Store)
    requires CertServed(a, s) && a.ing.preSharedCert == ""
    ensures OwnCertInUse(a.Namer(), s)
  {
    hide Namer.Name;
  }

  lemma CertStageStays(b: Args, s: C.Store, s': C.Store, r: Run)
    requires HttpsStage(b, s.sslCertificates, s'.sslCertificates, s.httpsProxies, s'.httpsProxies, s'.forwardingRules,
                        r.inp, r.um, r.http, r.https)
    requires b.strict && OwnCertInUse(b.Namer(), s)
    ensures s'.sslCertificates == s.sslCertificates && OwnCertInUse(b.Namer(), s')
    ensures b.WantsHttps() && b.ing.preSharedCert == "" && r.https.certErr == Nil ==>
              && b.w.tlsSecret(r.inp.client).Some?
              && b.w.tlsSecret(r.inp.client).value.cert == s.sslCertificates[b.Namer().Name(SslCert)].spec.certificate
  {
    hide Namer.Name, R.Outcome, T.Outcome, CertStage, T.DesiredHttps;
    if b.WantsHttps() {
      OwnCertStays(b, s.sslCertificates, s'.sslCertificates, s.httpsProxies, r);
      var name, want := b.Namer().Name(HttpsProxy), T.DesiredHttps(b.lbName, r.um.link, r.https.certLink);
      ProxyWrites(s.httpsProxies, s'.httpsProxies, name, want, T.PatchedHttps(s.httpsProxies, name, want), b.force,
                  r.https.proxyErr, b.reliable);
    }
  }

  lemma OwnCertStays(b: Args, certs: C.Table<C.SslCertificate>, certs': C.Table<C.SslCertificate>,
                     proxies: C.Table<C.HttpsProxy>, r: Run)
    requires CertStage(b, certs, certs', proxies, r.inp, r.https) && b.strict
    requires b.Namer().Name(SslCert) in certs && b.Namer().Name(HttpsProxy) in proxies
    requires S.OwnLink(b.Namer()) in proxies[b.Namer().Name(HttpsProxy)].spec.sslCertificates
    ensures certs' == certs
    ensures b.ing.preSharedCert == "" && r.https.certErr == Nil ==>
              && b.w.tlsSecret(r.inp.client).Some?
              && b.w.tlsSecret(r.inp.client).value.cert == certs[b.Namer().Name(SslCert)].spec.certificate
  {
    hide Namer.Name;
    assert C.SslCertificateInUse(proxies, b.Namer().Name(SslCert));
    hide C.SslCertificateInUse;
  }

  /** In a cloud that protects used resources no create, forced or not, replaces a
      certificate in use, and a create whose clusters hold a different one fails. */
  lemma CertificateStays(b: Args, s: C.Store, s': C.Store, err: Err, r: Run)
    requires CreateRun(b, s, s', err, r) && b.strict && OwnCertInUse(b.Namer(), s)
    ensures s'.sslCertificates == s.sslCertificates && OwnCertInUse(b.Namer(), s')
    ensures b.WantsHttps() && b.ing.preSharedCert == "" && err == Nil ==>
              exists c :: c in b.clients && b.w.tlsSecret(c).Some? &&
                b.w.tlsSecret(c).value.cert == s.sslCertificates[b.Namer().Name(SslCert)].spec.certificate
  {
    hide HealthStage, GroupStage, BackendStage, UrlMapStage, HttpStage, HttpsStage, FirewallStage, NodePorts, AddressOf,
         Namer.Name;
    if FullRun(b, s, s', err, r) {
      CertStageStays(b, s, s', r);
    }
  }

  /** The command is not a delete of this load balancer: it is another command on
      it, in a cloud that protects used resources, or one on a load balancer that
      shares no name with it. */
  ghost predicate Spares(e: Event, l: string) {
    || (e.a.lbName == l && !e.Deleted? && (e.Created? ==> e.a.strict))
    || NamesDiffer(MciNamer(e.a.lbName), MciNamer(l))
  }

  /** Both records are as before. */
  ghost predicate CertKept(n: Namer, s: C.Store, s': C.Store) {
    && SameAt(s.sslCertificates, s'.sslCertificates, n.Name(SslCert))
    && OwnCertInUse(n, s')
  }

  lemma OthersKeepCert(l: string, preShared: string, n: Namer, s: C.Store, s': C.Store)
    requires Writes(MciNamer(l), preShared, s, s') && NamesDiffer(MciNamer(l), n) && OwnCertInUse(n, s)
    ensures CertKept(n, s, s')
  {
    hide Namer.Name, WroteService, WroteUrlMap, WroteHttpProxy, WroteRule;
    assert MciNamer(l).Name(SslCert) != n.Name(SslCert) && MciNamer(l).Name(HttpsProxy) != n.Name(HttpsProxy);
  }

  lemma RemovalKeepsCert(n: Namer, a: Args, remove: set<string>, s: C.Store, s': C.Store, err: Err, r: Removal)
    requires RemoveRun(a, remove, s, s', err, r) && OwnCertInUse(n, s)
    ensures CertKept(n, s, s')
  {
    hide Namer.Name, GroupsRemoved, StatusUpdated, GroupsKnown, StatusFound, StatusLookup, RemoveStops, NodePorts;
  }

  lemma DeleteKeepsCert(n: Namer, a: Args, s: C.Store, s': C.Store, err: Err, ports: seq<ServicePort>, e: DeleteErrs)
    requires DeleteRun(a, s, s', err, ports, e) && NamesDiffer(a.Namer(), n) && OwnCertInUse(n, s)
    ensures CertKept(n, s, s')
  {
    hide DeleteRun, Namer.Name, NamesDiffer;
    OthersSurviveDelete(a, n, s, s', err, ports, e, SslCert);
    OthersSurviveDelete(a, n, s, s', err, ports, e, HttpsProxy);
  }

  lemma StepKeepsCert(e: Event, l: string, s: C.Store, s': C.Store)
    requires Happens(e, s, s') && Spares(e, l) && OwnCertInUse(MciNamer(l), s)
    ensures CertKept(MciNamer(l), s, s')
  {
    hide CreateRun, RemoveRun, DeleteRun, OwnCertInUse, NamesDiffer, Namer.Name, Writes;
    match e {
      case Created(a, err, run) =>
        if a.lbName == l && a.strict {
          CertificateStays(a, s, s', err, run);
        } else {
          CreateWrites(a, s, s', err, run);
          OthersKeepCert(a.lbName, a.ing.preSharedCert, MciNamer(l), s, s');
        }
      case ClustersRemoved(a, remove, err, removal) =>
        RemovalKeepsCert(MciNamer(l), a, remove, s, s', err, removal);
      case Deleted(a, err, ports, errs) =>
        DeleteKeepsCert(MciNamer(l), a, s, s', err, ports, errs);
    }
  }

  /** A certificate in use is never rotated: whatever commands follow, complete or
      failed, forced or not, it stays as it is until the load balancer is deleted. */
  lemma {:induction false} CertificateNeverRotates(events: seq<Event>, stores: seq<C.Store>, l: string, i: nat)
    requires History(events, stores) && OwnCertInUse(MciNamer(l), stores[0]) && i < |stores|
    requires forall k :: 0 <= k < |events| ==> Spares(events[k], l)
    ensures OwnCertInUse(MciNamer(l), stores[i])
    ensures stores[i].sslCertificates[MciNamer(l).Name(SslCert)] == stores[0].sslCertificates[MciNamer(l).Name(SslCert)]
  {
    hide Happens, Spares, Namer.Name;
    if i > 0 {
      CertificateNeverRotates(events, stores, l, i - 1);
      assert Happens(events[i - 1], stores[i - 1], stores[i]) && Spares(events[i - 1], l);
      StepKeepsCert(events[i - 1], l, stores[i - 1], stores[i]);
    }
  }

  /** So it is from the first successful create on, unless that was forced upon an
      HTTPS proxy that was already there. */
  lemma CreatedCertificateStays(events: seq<Event>, stores: seq<C.Store>, i: nat)
    requires History(events, stores) && |events| > 0 && 1 <= i < |stores|
    requires events[0].Created? && events[0].err == Nil
    requires var a := events[0].a;
             && a.WantsHttps() && a.ing.preSharedCert == ""
             && (a.Namer().Name(HttpsProxy) !in stores[0].httpsProxies || !a.force)
    requires forall k :: 1 <= k < |events| ==> Spares(events[k], events[0].a.lbName)
    ensures var name := events[0].a.Namer().Name(SslCert);
            && name in stores[1].sslCertificates && name in stores[i].sslCertificates
            && stores[i].sslCertificates[name] == stores[1].sslCertificates[name]
  {
    hide CreateRun, Spares, Namer.Name, CompleteChain, NodePorts, AddressOf, CertServed;
    var a := events[0].a;
    assert Happens(events[0], stores[0], stores[1]);
    SuccessfulCreateIsComplete(a, stores[0], stores[1], events[0].run);
    ServedMeansInUse(a, stores[1]);
    hide Happens;
    assert History(events[1..], stores[1..]) by {
      forall k | 0 <= k < |events[1..]| ensures Happens(events[1..][k], stores[1..][k], stores[1..][k + 1]) {
        assert Happens(events[k + 1], stores[k + 1], stores[k + 2]);
      }
    }
    CertificateNeverRotates(events[1..], stores[1..], a.lbName, i - 1);
  }
}
