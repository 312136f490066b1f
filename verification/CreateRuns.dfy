/** What every create run guarantees, complete or not, forced or not. */
module CreateRuns {
  import opened Prelude
  import opened Names
  import opened Ingress
  import opened Sorting
  import opened LoadBalancer
  import Tr = Translation
  import C = Cloud
  import H = HealthChecks
  import P = ProbePaths
  import B = BackendServices
  import U = UrlMaps
  import T = TargetProxies
  import S = SslCerts
  import R = ForwardingRules
  import F = FirewallRules

  // ---------- An unforced create never touches what is there ----------

  ghost predicate StoreExtends(s: C.Store, s': C.Store) {
    && Extends(s.healthChecks, s'.healthChecks)
    && Extends(s.backendServices, s'.backendServices)
    && Extends(s.urlMaps, s'.urlMaps)
    && Extends(s.httpProxies, s'.httpProxies)
    && Extends(s.httpsProxies, s'.httpsProxies)
    && Extends(s.sslCertificates, s'.sslCertificates)
    && Extends(s.forwardingRules, s'.forwardingRules)
    && Extends(s.firewalls, s'.firewalls)
  }

  lemma HttpMonotone(a: Args, proxies: C.Table<C.HttpProxy>, proxies': C.Table<C.HttpProxy>,
                     rules: C.Table<C.ForwardingRule>,
                     inp: Inputs, um: UrlMapPart, http: HttpPart)
    requires HttpStage(a, proxies, proxies', rules, inp, um, http) && !a.force
    ensures Extends(proxies, proxies') && Extends(rules, http.rules)
  {
    hide Namer.Name, T.DesiredHttp, R.DesiredHttp, T.PatchedHttp, R.Ensured;
  }

  lemma HttpsMonotone(a: Args, certs: C.Table<C.SslCertificate>, certs': C.Table<C.SslCertificate>,
                      proxies: C.Table<C.HttpsProxy>, proxies': C.Table<C.HttpsProxy>,
                      rules': C.Table<C.ForwardingRule>, inp: Inputs, um: UrlMapPart, http: HttpPart, https: HttpsPart)
    requires HttpsStage(a, certs, certs', proxies, proxies', rules', inp, um, http, https) && !a.force
    ensures Extends(proxies, proxies') && Extends(certs, certs') && Extends(http.rules, rules')
  {
    hide Namer.Name, T.DesiredHttps, R.DesiredHttps, T.PatchedHttps, R.Ensured, S.Desired, C.SslCertificateInUse;
  }

  /** On every run without force, including runs that fail at any step, each
      resource present before is present and unchanged after. */
  lemma UnforcedCreateIsMonotone(a: Args, s: C.Store, s': C.Store, err: Prelude.Err, r: Run)
    requires CreateRun(a, s, s', err, r) && !a.force
    ensures StoreExtends(s, s')
  {
    hide InputStage, HealthStage, GroupStage, BackendStage, UrlMapStage, HttpStage, HttpsStage, FirewallStage;
    if HealthStage(a, s.healthChecks, s'.healthChecks, r.inp, r.hc) {
      HealthMonotone(a, s.healthChecks, s'.healthChecks, r.inp, r.hc);
    }
    if FullRun(a, s, s', err, r) {
      TablesMonotone(a, s, s', r);
      HttpMonotone(a, s.httpProxies, s'.httpProxies, s.forwardingRules, r.inp, r.um, r.http);
      HttpsMonotone(a, s.sslCertificates, s'.sslCertificates, s.httpsProxies, s'.httpsProxies, s'.forwardingRules,
                    r.inp, r.um, r.http, r.https);
    }
  }

  lemma HealthMonotone(a: Args, t: C.Table<C.HealthCheck>, t': C.Table<C.HealthCheck>, inp: Inputs, hc: HealthPart)
    requires !a.force && HealthStage(a, t, t', inp, hc)
    ensures Extends(t, t')
  {
    hide Namer.Name, H.WantFor, H.Probeable, H.Link;
  }

  lemma TablesMonotone(a: Args, s: C.Store, s': C.Store, r: Run)
    requires !a.force
    requires BackendStage(a, s.backendServices, s'.backendServices, r.inp, r.hc, r.ig, r.be)
    requires UrlMapStage(a, s.urlMaps, s'.urlMaps, r.inp, r.be, r.um)
    requires FirewallStage(a, s.firewalls, s'.firewalls, r.inp, r.ig, r.fw)
    ensures Extends(s.backendServices, s'.backendServices)
    ensures Extends(s.urlMaps, s'.urlMaps) && Extends(s.firewalls, s'.firewalls)
  {
    hide Namer.Name, B.WantFor, B.Supplied, B.OwnServices, B.ServiceMap, U.Wanted, F.Wanted, F.Fill, F.Matches,
         FlatMapped, Enumerates, F.TagsKnown, U.Translatable;
  }

  // ---------- What a run writes ----------

  /** No resource has a name of this load balancer. */
  ghost predicate Absent(n: Namer, s: C.Store) {
    forall role: Role ::
      var name := n.Name(role);
      && name !in s.healthChecks && name !in s.backendServices && name !in s.urlMaps && name !in s.httpProxies
      && name !in s.httpsProxies && name !in s.sslCertificates && name !in s.forwardingRules && name !in s.firewalls
  }

  /** The record at `k` is as before. */
  ghost predicate Kept<V>(t: C.Table<V>, t': C.Table<V>, k: string) {
    k in t && k in t' && t'[k] == t[k]
  }

  /** Every record after a run is as before or was written by the run: under a
      name of this load balancer, and referring to nothing but resources of this
      load balancer (or, for a certificate, to the pre-shared one). No record
      under another name is lost. */
  ghost predicate Writes(n: Namer, preShared: string, s: C.Store, s': C.Store) {
    && (forall k :: k in s'.healthChecks ==>
          Kept(s.healthChecks, s'.healthChecks, k) || exists p: Port :: k == n.Name(HealthCheck(p)))
    && (forall k :: k in s'.backendServices ==>
          Kept(s.backendServices, s'.backendServices, k) || WroteService(n, s', k))
    && (forall k :: k in s'.urlMaps ==> Kept(s.urlMaps, s'.urlMaps, k) || WroteUrlMap(n, s', k))
    && (forall k :: k in s'.httpProxies ==> Kept(s.httpProxies, s'.httpProxies, k) || WroteHttpProxy(n, s', k))
    && (forall k :: k in s'.httpsProxies ==>
          Kept(s.httpsProxies, s'.httpsProxies, k) || WroteHttpsProxy(n, preShared, s, s', k))
    && (forall k :: k in s'.forwardingRules ==> Kept(s.forwardingRules, s'.forwardingRules, k) || WroteRule(n, s', k))
    && (forall k :: k in s'.sslCertificates ==> Kept(s.sslCertificates, s'.sslCertificates, k) || k == n.Name(SslCert))
    && (forall k :: k in s'.firewalls ==> Kept(s.firewalls, s'.firewalls, k) || k == n.Name(Firewall))
    && NothingLost(n, s, s')
  }

  /** Only own forwarding rules and the own certificate can disappear. */
  ghost predicate NothingLost(n: Namer, s: C.Store, s': C.Store) {
    && s.healthChecks.Keys <= s'.healthChecks.Keys
    && s.backendServices.Keys <= s'.backendServices.Keys
    && s.urlMaps.Keys <= s'.urlMaps.Keys
    && s.httpProxies.Keys <= s'.httpProxies.Keys
    && s.httpsProxies.Keys <= s'.httpsProxies.Keys
    && s.firewalls.Keys <= s'.firewalls.Keys
    && (forall k :: k in s.forwardingRules && k !in s'.forwardingRules ==>
          k == n.Name(HttpRule) || k == n.Name(HttpsRule))
    && (forall k :: k in s.sslCertificates && k !in s'.sslCertificates ==> k == n.Name(SslCert))
  }

  ghost predicate WroteService(n: Namer, s': C.Store, k: string)
    requires k in s'.backendServices
  {
    exists p: Port :: k == n.Name(BackendService(p)) && s'.backendServices[k].spec.healthChecks == [H.Link(n, p)]
  }

  ghost predicate WroteUrlMap(n: Namer, s': C.Store, k: string)
    requires k in s'.urlMaps
  {
    k == n.Name(UrlMap) && forall link :: C.RefersToService(s'.urlMaps[k].spec, link) ==>
          exists p: Port :: link == B.Link(n, p)
  }

  ghost predicate WroteHttpProxy(n: Namer, s': C.Store, k: string)
    requires k in s'.httpProxies
  {
    k == n.Name(HttpProxy) && s'.httpProxies[k].spec.urlMap in {U.Link(n), C.NoLink}
  }

  /** An existing HTTPS proxy keeps its certificates, also under force. */
  ghost predicate WroteHttpsProxy(n: Namer, preShared: string, s: C.Store, s': C.Store, k: string)
    requires k in s'.httpsProxies
  {
    && k == n.Name(HttpsProxy)
    && s'.httpsProxies[k].spec.urlMap in {U.Link(n), C.NoLink}
    && (k in s.httpsProxies ==> s'.httpsProxies[k].spec.sslCertificates == s.httpsProxies[k].spec.sslCertificates)
    && (k !in s.httpsProxies ==> forall link :: link in s'.httpsProxies[k].spec.sslCertificates ==>
          link in {S.OwnLink(n), C.SelfLink(C.SslCertificates, preShared), C.NoLink})
  }

  ghost predicate WroteRule(n: Namer, s': C.Store, k: string)
    requires k in s'.forwardingRules
  {
    || (k == n.Name(HttpRule) && s'.forwardingRules[k].spec.target in {T.HttpLink(n), C.NoLink})
    || (k == n.Name(HttpsRule) && s'.forwardingRules[k].spec.target in {T.HttpsLink(n), C.NoLink})
  }

  lemma HealthWrites(a: Args, t: C.Table<C.HealthCheck>, t': C.Table<C.HealthCheck>, inp: Inputs, hc: HealthPart)
    requires HealthStage(a, t, t', inp, hc)
    ensures t.Keys <= t'.Keys
    ensures forall k :: k in t' ==> Kept(t, t', k) || exists p: Port :: k == a.Namer().Name(HealthCheck(p))
  {
    hide Namer.Name, H.Probeable, H.Link, H.Desired;
    forall k | k in t' && !Kept(t, t', k) ensures exists p: Port :: k == a.Namer().Name(HealthCheck(p)) {
      var i :| 0 <= i < |hc.wants| && hc.wants[i].name == k;
      var j :| 0 <= j < |inp.ports| && H.WantFor(HcJob(a, inp), hc.wants[i], inp.ports[j]);
      assert k == a.Namer().Name(HealthCheck(inp.ports[j].nodePort));
    }
  }

  lemma BackendWrites(a: Args, s: C.Store, s': C.Store, inp: Inputs, hc: HealthPart, ig: GroupPart, be: BackendPart,
                      t: C.Table<C.HealthCheck>, t': C.Table<C.HealthCheck>)
    requires HealthStage(a, t, t', inp, hc)
    requires BackendStage(a, s.backendServices, s'.backendServices, inp, hc, ig, be)
    ensures s.backendServices.Keys <= s'.backendServices.Keys
    ensures forall k :: k in s'.backendServices ==>
              Kept(s.backendServices, s'.backendServices, k) || WroteService(a.Namer(), s', k)
  {
    hide Namer.Name, H.WantFor, H.Probeable, FlatMapped, Enumerates, B.ServiceMap, C.ReconciledAll, GroupFn;
    assert forall n :: n in hc.hcs ==> hc.hcs[n] == H.Link(a.Namer(), n);
    BackendRecords(a, s.backendServices, s'.backendServices, inp, hc, ig, be);
    forall k | k in s'.backendServices && !Kept(s.backendServices, s'.backendServices, k)
      ensures WroteService(a.Namer(), s', k)
    {
      var i :| 0 <= i < |be.wants| && be.wants[i].name == k && C.Holds(s'.backendServices, be.wants[i]);
      var j :| 0 <= j < |inp.ports| && B.WantFor(BeJob(a, inp, hc, ig, be.groups), be.wants[i], inp.ports[j]);
      assert k == a.Namer().Name(BackendService(inp.ports[j].nodePort));
    }
  }

  lemma BackendRecords(a: Args, t: C.Table<C.BackendService>, t': C.Table<C.BackendService>, inp: Inputs,
                       hc: HealthPart, ig: GroupPart, be: BackendPart)
    requires BackendStage(a, t, t', inp, hc, ig, be)
    ensures t.Keys <= t'.Keys
    ensures forall k :: k in t' && !Kept(t, t', k) ==>
              exists i :: 0 <= i < |be.wants| && be.wants[i].name == k && C.Holds(t', be.wants[i])
  {
    hide Namer.Name, FlatMapped, Enumerates, B.ServiceMap, B.WantFor, B.Supplied, B.OwnServices;
  }

  /** Every service a translation refers to is one it was given. */
  lemma TranslationRefersToServices(um: C.UrlMap, ing: Spec, services: map<string, C.Link>, hash: string -> string,
                                    link: C.Link)
    requires Tr.Translates(um, ing, services, hash) && C.RefersToService(um, link)
    ensures exists n :: n in services && services[n] == link
  {
    var routes := Tr.HostTable(ing.rules, services) - {Tr.DEFAULT_BACKEND_KEY};
    assert MentionedBackends(ing)[0] == ing.backend.value;
    if link != um.defaultService {
      var i :| 0 <= i < |um.pathMatchers| &&
         (|| um.pathMatchers[i].defaultService == link
          || exists j :: 0 <= j < |um.pathMatchers[i].pathRules| && um.pathMatchers[i].pathRules[j].service == link);
      assert Tr.ListsHost(um, i, routes, hash);
      var rules := um.pathMatchers[i].pathRules;
      var j :| 0 <= j < |rules| && rules[j].service == link;
      var host, path := um.hostRules[i].hosts[0], rules[j].paths[0];
      Tr.HostTableMeaning(ing.rules, services, host);
      var paths := Tr.LastRule(ing.rules, host).value;
      Tr.PathTableMeaning(paths, services, path);
      LastRuleBackends(ing.rules, host);
      LastEntryBackend(paths, path);
    }
  }

  lemma {:induction false} LastRuleBackends(rules: seq<Rule>, host: string)
    requires Tr.LastRule(rules, host).Some?
    ensures forall be :: be in PathBackends(Tr.LastRule(rules, host).value) ==> be in RuleBackends(rules)
  {
    var last := rules[|rules| - 1];
    if !(last.http.Some? && Tr.HostOf(last) == host) {
      LastRuleBackends(rules[..|rules| - 1], host);
    }
  }

  lemma {:induction false} LastEntryBackend(paths: seq<PathEntry>, path: string)
    requires Tr.LastEntry(paths, path).Some?
    ensures Tr.LastEntry(paths, path).value in PathBackends(paths)
  {
    if Tr.PathOf(paths[|paths| - 1]) != path {
      LastEntryBackend(paths[..|paths| - 1], path);
    }
  }

  lemma UrlMapWrites(a: Args, s: C.Store, s': C.Store, inp: Inputs, hc: HealthPart, ig: GroupPart, be: BackendPart,
                     um: UrlMapPart)
    requires BackendStage(a, s.backendServices, s'.backendServices, inp, hc, ig, be)
    requires UrlMapStage(a, s.urlMaps, s'.urlMaps, inp, be, um)
    ensures s.urlMaps.Keys <= s'.urlMaps.Keys
    ensures forall k :: k in s'.urlMaps ==> Kept(s.urlMaps, s'.urlMaps, k) || WroteUrlMap(a.Namer(), s', k)
  {
    hide Namer.Name, FlatMapped, Enumerates, B.ServiceMap, B.WantFor, B.Supplied, C.ReconciledAll, Tr.Translates,
         C.RefersToService, U.Translatable;
    forall k | k in s'.urlMaps && !Kept(s.urlMaps, s'.urlMaps, k) ensures WroteUrlMap(a.Namer(), s', k) {
      assert k == a.Namer().Name(UrlMap) && s'.urlMaps[k].spec == um.want.value;
      forall link | C.RefersToService(um.want.value, link) ensures exists p: Port :: link == B.Link(a.Namer(), p) {
        TranslationRefersToServices(um.want.value, a.ing, be.services, a.hash, link);
        var n :| n in be.services && be.services[n] == link;
        var j :| 0 <= j < |inp.ports| && inp.ports[j].svcName == n &&
            be.services[n] == B.Link(a.Namer(), inp.ports[j].nodePort);
      }
    }
  }

  lemma RuleWrites(t: C.Table<C.ForwardingRule>, t': C.Table<C.ForwardingRule>, name: string, want: C.ForwardingRule,
                   force: bool, err: Prelude.Err, reliable: bool)
    requires R.Outcome(t, t', name, want, force, err, reliable)
    ensures forall k :: k in t' ==> Kept(t, t', k) || (k == name && t'[k].spec.target == want.target)
    ensures forall k :: k in t && k !in t' ==> k == name
  {
  }

  lemma ProxyWrites<V>(t: C.Table<V>, t': C.Table<V>, name: string, want: V, patched: V, force: bool, err: Prelude.Err,
                       reliable: bool)
    requires T.Outcome(t, t', name, want, patched, force, err, reliable)
    ensures t.Keys <= t'.Keys
    ensures forall k :: k in t' ==> Kept(t, t', k) || (k == name && t'[k].spec == if k in t then patched else want)
  {
  }

  lemma Targets(lbName: string, ip: string, link: C.Link)
    ensures R.DesiredHttp(lbName, ip, link).target == link && R.DesiredHttps(lbName, ip, link).target == link
    ensures T.DesiredHttp(lbName, link).urlMap == link
    ensures forall cert :: T.DesiredHttps(lbName, link, cert).urlMap == link &&
              T.DesiredHttps(lbName, link, cert).sslCertificates == [cert]
  {
  }

  lemma HttpWrites(a: Args, s: C.Store, s': C.Store, inp: Inputs, um: UrlMapPart, http: HttpPart)
    requires HttpStage(a, s.httpProxies, s'.httpProxies, s.forwardingRules, inp, um, http)
    requires um.link in {U.Link(a.Namer()), C.NoLink}
    ensures s.httpProxies.Keys <= s'.httpProxies.Keys
    ensures forall k :: k in s'.httpProxies ==>
              Kept(s.httpProxies, s'.httpProxies, k) || WroteHttpProxy(a.Namer(), s', k)
    ensures forall k :: k in http.rules ==>
              || Kept(s.forwardingRules, http.rules, k)
              || (k == a.Namer().Name(HttpRule) && http.rules[k].spec.target in {T.HttpLink(a.Namer()), C.NoLink})
    ensures forall k :: k in s.forwardingRules && k !in http.rules ==> k == a.Namer().Name(HttpRule)
  {
    hide Namer.Name, U.Link, T.HttpLink, R.Outcome, T.Outcome, T.DesiredHttp, R.DesiredHttp;
    var n := a.Namer();
    if a.ing.allowHttp {
      var proxy, rule := T.DesiredHttp(a.lbName, um.link), R.DesiredHttp(a.lbName, inp.ip, HttpTarget(a, http));
      Targets(a.lbName, inp.ip, um.link);
      Targets(a.lbName, inp.ip, HttpTarget(a, http));
      ProxyWrites(s.httpProxies, s'.httpProxies, n.Name(HttpProxy), proxy,
                  T.PatchedHttp(s.httpProxies, n.Name(HttpProxy), proxy), a.force, http.proxyErr, a.reliable);
      RuleWrites(s.forwardingRules, http.rules, n.Name(HttpRule), rule, a.force, http.ruleErr, a.reliable);
    }
  }

  lemma HttpsWrites(a: Args, s: C.Store, s': C.Store, inp: Inputs, um: UrlMapPart, http: HttpPart, https: HttpsPart)
    requires HttpsStage(a, s.sslCertificates, s'.sslCertificates, s.httpsProxies, s'.httpsProxies, s'.forwardingRules,
                        inp, um, http, https)
    requires um.link in {U.Link(a.Namer()), C.NoLink}
    ensures s.httpsProxies.Keys <= s'.httpsProxies.Keys
    ensures forall k :: k in s'.httpsProxies ==>
              Kept(s.httpsProxies, s'.httpsProxies, k) || WroteHttpsProxy(a.Namer(), a.ing.preSharedCert, s, s', k)
    ensures forall k :: k in s'.sslCertificates ==>
              Kept(s.sslCertificates, s'.sslCertificates, k) || k == a.Namer().Name(SslCert)
    ensures forall k :: k in s.sslCertificates && k !in s'.sslCertificates ==> k == a.Namer().Name(SslCert)
    ensures forall k :: k in s'.forwardingRules ==>
              || Kept(http.rules, s'.forwardingRules, k)
              || (k == a.Namer().Name(HttpsRule) &&
                  s'.forwardingRules[k].spec.target in {T.HttpsLink(a.Namer()), C.NoLink})
    ensures forall k :: k in http.rules && k !in s'.forwardingRules ==> k == a.Namer().Name(HttpsRule)
  {
    hide Namer.Name, U.Link, T.HttpsLink, S.OwnLink, C.SslCertificateInUse, R.Outcome, T.Outcome, T.DesiredHttps,
         R.DesiredHttps, S.Desired;
    var n := a.Namer();
    if a.WantsHttps() {
      var proxy, rule :=
          T.DesiredHttps(a.lbName, um.link, https.certLink), R.DesiredHttps(a.lbName, inp.ip, HttpsTarget(a, https));
      Targets(a.lbName, inp.ip, um.link);
      Targets(a.lbName, inp.ip, HttpsTarget(a, https));
      ProxyWrites(s.httpsProxies, s'.httpsProxies, n.Name(HttpsProxy), proxy,
                  T.PatchedHttps(s.httpsProxies, n.Name(HttpsProxy), proxy), a.force, https.proxyErr, a.reliable);
      RuleWrites(http.rules, s'.forwardingRules, n.Name(HttpsRule), rule, a.force, https.ruleErr, a.reliable);
    }
  }

  lemma BothRulesWrite(n: Namer, s: C.Store, s': C.Store, mid: C.Table<C.ForwardingRule>)
    requires forall k :: k in mid ==>
               Kept(s.forwardingRules, mid, k) ||
                   (k == n.Name(HttpRule) && mid[k].spec.target in {T.HttpLink(n), C.NoLink})
    requires forall k :: k in s.forwardingRules && k !in mid ==> k == n.Name(HttpRule)
    requires forall k :: k in s'.forwardingRules ==>
               Kept(mid, s'.forwardingRules, k) ||
                   (k == n.Name(HttpsRule) && s'.forwardingRules[k].spec.target in {T.HttpsLink(n), C.NoLink})
    requires forall k :: k in mid && k !in s'.forwardingRules ==> k == n.Name(HttpsRule)
    ensures forall k :: k in s'.forwardingRules ==>
              Kept(s.forwardingRules, s'.forwardingRules, k) || WroteRule(n, s', k)
    ensures forall k :: k in s.forwardingRules && k !in s'.forwardingRules ==>
              k == n.Name(HttpRule) || k == n.Name(HttpsRule)
  {
    hide Namer.Name, T.HttpLink, T.HttpsLink;
    forall k | k in s'.forwardingRules ensures Kept(s.forwardingRules, s'.forwardingRules, k) || WroteRule(n, s', k) {
      assert Kept(mid, s'.forwardingRules, k) ==> k in mid;
    }
  }

  lemma FullRunWrites(a: Args, s: C.Store, s': C.Store, err: Prelude.Err, r: Run)
    requires FullRun(a, s, s', err, r)
    ensures Writes(a.Namer(), a.ing.preSharedCert, s, s')
  {
    hide InputStage, HealthStage, GroupStage, BackendStage, UrlMapStage, HttpStage, HttpsStage, FirewallStage,
         WroteService, WroteUrlMap, WroteHttpProxy, WroteHttpsProxy, WroteRule, Kept, Namer.Name, T.HttpLink,
         T.HttpsLink, U.Link;
    HealthWrites(a, s.healthChecks, s'.healthChecks, r.inp, r.hc);
    UrlMapLink(a, s.urlMaps, s'.urlMaps, r.inp, r.be, r.um);
    BackendWrites(a, s, s', r.inp, r.hc, r.ig, r.be, s.healthChecks, s'.healthChecks);
    UrlMapWrites(a, s, s', r.inp, r.hc, r.ig, r.be, r.um);
    HttpWrites(a, s, s', r.inp, r.um, r.http);
    HttpsWrites(a, s, s', r.inp, r.um, r.http, r.https);
    FirewallWrites(a, s.firewalls, s'.firewalls, r.inp, r.ig, r.fw);
    BothRulesWrite(a.Namer(), s, s', r.http.rules);
  }

  lemma EarlyRunWrites(a: Args, s: C.Store, s': C.Store, err: Prelude.Err, r: Run)
    requires EarlyRun(a, s, s', err, r)
    ensures Writes(a.Namer(), a.ing.preSharedCert, s, s')
  {
    hide HealthStage, GroupStage, InputStage, AddressOf, WroteService, WroteUrlMap, WroteHttpProxy, WroteHttpsProxy,
         WroteRule, Namer.Name;
    if HealthStage(a, s.healthChecks, s'.healthChecks, r.inp, r.hc) {
      HealthWrites(a, s.healthChecks, s'.healthChecks, r.inp, r.hc);
    }
  }

  /** Every create run, complete or not, forced or not, writes only under names
      of its own load balancer and only links to its own resources. */
  lemma CreateWrites(a: Args, s: C.Store, s': C.Store, err: Prelude.Err, r: Run)
    requires CreateRun(a, s, s', err, r)
    ensures Writes(a.Namer(), a.ing.preSharedCert, s, s')
  {
    hide FullRun, EarlyRun, Writes;
    if FullRun(a, s, s', err, r) {
      FullRunWrites(a, s, s', err, r);
    } else {
      EarlyRunWrites(a, s, s', err, r);
    }
  }

  lemma UrlMapLink(a: Args, t: C.Table<C.UrlMap>, t': C.Table<C.UrlMap>, inp: Inputs, be: BackendPart, um: UrlMapPart)
    requires UrlMapStage(a, t, t', inp, be, um)
    ensures um.link in {U.Link(a.Namer()), C.NoLink}
  {
  }

  lemma FirewallWrites(a: Args, t: C.Table<C.Firewall>, t': C.Table<C.Firewall>, inp: Inputs, ig: GroupPart,
                       fw: FirewallPart)
    requires FirewallStage(a, t, t', inp, ig, fw)
    ensures t.Keys <= t'.Keys
    ensures forall k :: k in t' ==> Kept(t, t', k) || k == a.Namer().Name(Firewall)
  {
    hide Namer.Name, F.Wanted, F.Fill, F.Matches, F.TagsKnown;
  }
}
