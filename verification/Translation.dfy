/** The translation of an ingress into the host and path rules of a URL map,
    seen as a small compiler: what a request is routed to must not change. */
module Translation {
  import opened Prelude
  import opened Ingress
  import C = Cloud

  const DEFAULT_HOST := "*"
  const DEFAULT_PATH := "/*"
  const DEFAULT_BACKEND_KEY := "DefaultBackend"

  // ---------- Meaning of an ingress ----------

  function HostOf(rule: Rule): string {
    if rule.host == "" then DEFAULT_HOST else rule.host
  }

  function PathOf(entry: PathEntry): string {
    if entry.path == "" then DEFAULT_PATH else entry.path
  }

  /** The paths of the last HTTP rule for a host. */
  function LastRule(rules: seq<Rule>, host: string): Option<seq<PathEntry>> {
    if rules == [] then None
    else
      var last := rules[|rules| - 1];
      if last.http.Some? && HostOf(last) == host then last.http else LastRule(rules[..|rules| - 1], host)
  }

  /** The backend of the last entry for a path. */
  function LastEntry(paths: seq<PathEntry>, path: string): Option<Backend> {
    if paths == [] then None
    else
      var last := paths[|paths| - 1];
      if PathOf(last) == path then Some(last.backend) else LastEntry(paths[..|paths| - 1], path)
  }

  /** Where the ingress sends a host and path: the last entry for the path in
      the last rule for the host, otherwise the default backend. */
  function Route(ing: Spec, host: string, path: string): (be: Backend)
    requires ing.backend.Some?
  {
    match LastRule(ing.rules, host)
    case None => ing.backend.value
    case Some(paths) =>
      match LastEntry(paths, path)
      case None => ing.backend.value
      case Some(be) => be
  }

  // ---------- Meaning of a URL map ----------

  function FindHost(rules: seq<C.HostRule>, host: string): Option<string> {
    if rules == [] then None
    else if host in rules[0].hosts then Some(rules[0].pathMatcher)
    else FindHost(rules[1..], host)
  }

  function FindMatcher(matchers: seq<C.PathMatcher>, name: string): Option<C.PathMatcher> {
    if matchers == [] then None
    else if matchers[0].name == name then Some(matchers[0])
    else FindMatcher(matchers[1..], name)
  }

  function FindPath(rules: seq<C.PathRule>, path: string): Option<C.Link> {
    if rules == [] then None
    else if path in rules[0].paths then Some(rules[0].service)
    else FindPath(rules[1..], path)
  }

  /** Where a URL map sends a host and path expression. */
  function Lookup(um: C.UrlMap, host: string, path: string): C.Link {
    match FindHost(um.hostRules, host)
    case None => um.defaultService
    case Some(name) =>
      match FindMatcher(um.pathMatchers, name)
      case None => um.defaultService
      case Some(matcher) =>
        match FindPath(matcher.pathRules, path)
        case None => matcher.defaultService
        case Some(link) => link
  }

  // ---------- The map between them ----------

  type PathRoutes = map<string, C.Link>
  type Routes = map<string, PathRoutes>

  function ServiceLink(services: map<string, C.Link>, be: Backend): C.Link {
    if be.serviceName in services then services[be.serviceName] else C.NoLink
  }

  function PathTable(paths: seq<PathEntry>, services: map<string, C.Link>): PathRoutes {
    if paths == [] then map[]
    else
      var last := paths[|paths| - 1];
      PathTable(paths[..|paths| - 1], services)[PathOf(last) := ServiceLink(services, last.backend)]
  }

  function HostTable(rules: seq<Rule>, services: map<string, C.Link>): Routes {
    if rules == [] then map[]
    else
      var last := rules[|rules| - 1];
      var before := HostTable(rules[..|rules| - 1], services);
      if last.http.None? then before else before[HostOf(last) := PathTable(last.http.value, services)]
  }

  predicate AllFound(services: map<string, C.Link>, bes: seq<Backend>) {
    forall be :: be in bes ==> be.serviceName in services
  }

  /** The rules for one host. A path whose service has no backend service is
      skipped and makes the whole translation fail. */
  method PathsToRoutes(paths: seq<PathEntry>, services: map<string, C.Link>) returns (routes: PathRoutes, err: Err)
    ensures err == Nil <==> AllFound(services, PathBackends(paths))
    ensures err == Nil ==> routes == PathTable(paths, services)
  {
    routes, err := map[], Nil;
    for i := 0 to |paths|
      invariant err == Nil <==> AllFound(services, PathBackends(paths[..i]))
      invariant err == Nil ==> routes == PathTable(paths[..i], services)
    {
      assert paths[..i + 1][..i] == paths[..i];
      var p := paths[i];
      if p.backend.serviceName !in services {
        err := Append(err, Other);
        continue;
      }
      routes := routes[PathOf(p) := services[p.backend.serviceName]];
    }
    assert paths[..|paths|] == paths;
  }

  /** ingToURLMap: a table of hosts and paths, with the default backend under a
      key of its own. */
  method IngToUrlMap(ing: Spec, services: map<string, C.Link>) returns (routes: Routes, err: Err)
    ensures err == Nil <==> ing.backend.Some? && AllFound(services, MentionedBackends(ing))
    ensures err == Nil ==>
              routes ==
                  HostTable(ing.rules,
                            services)[DEFAULT_BACKEND_KEY :=
                                      map[DEFAULT_BACKEND_KEY := services[ing.backend.value.serviceName]]]
  {
    routes, err := map[], Nil;
    for i := 0 to |ing.rules|
      invariant err == Nil <==> AllFound(services, RuleBackends(ing.rules[..i]))
      invariant err == Nil ==> routes == HostTable(ing.rules[..i], services)
    {
      var rule := ing.rules[i];
      assert ing.rules[..i + 1][..i] == ing.rules[..i];
      if rule.http.None? {
        continue;
      }
      var paths, pathErr := PathsToRoutes(rule.http.value, services);
      err := Append(err, pathErr);
      routes := routes[HostOf(rule) := paths];
    }
    assert ing.rules[..|ing.rules|] == ing.rules;
    assert forall be :: be in MentionedBackends(ing) <==>
      be in RuleBackends(ing.rules) || (ing.backend.Some? && be == ing.backend.value);
    if ing.backend.None? {
      return map[], Append(err, Other);
    }
    if ing.backend.value.serviceName !in services {
      return map[], Append(err, Other);
    }
    routes := routes[DEFAULT_BACKEND_KEY := map[DEFAULT_BACKEND_KEY := services[ing.backend.value.serviceName]]];
  }

  /** `rules` lists the paths of `routes`, each once, in some order. */
  ghost predicate ListsPaths(rules: seq<C.PathRule>, routes: PathRoutes) {
    && |rules| == |routes|
    && (forall i :: 0 <= i < |rules| ==>
          |rules[i].paths| == 1 && rules[i].paths[0] in routes && rules[i].service == routes[rules[i].paths[0]])
    && (forall i, j :: 0 <= i < j < |rules| ==> rules[i].paths[0] != rules[j].paths[0])
  }

  /** `um` lists the hosts of `routes`, each once, in some order, with its path
      matcher at the same place. */
  ghost predicate Lists(um: C.UrlMap, routes: Routes, hash: string -> string) {
    && |um.hostRules| == |um.pathMatchers| == |routes|
    && (forall i :: 0 <= i < |um.hostRules| ==> ListsHost(um, i, routes, hash))
    && (forall i, j :: 0 <= i < j < |um.hostRules| ==> um.hostRules[i].hosts != um.hostRules[j].hosts)
  }

  ghost predicate ListsHost(um: C.UrlMap, i: nat, routes: Routes, hash: string -> string)
    requires i < |um.hostRules| && i < |um.pathMatchers|
  {
    && |um.hostRules[i].hosts| == 1
    && (var host := um.hostRules[i].hosts[0];
        && host in routes
        && um.hostRules[i].pathMatcher == MatcherName(hash, host) == um.pathMatchers[i].name
        && um.pathMatchers[i].defaultService == um.defaultService
        && ListsPaths(um.pathMatchers[i].pathRules, routes[host]))
  }

  /** getNameForPathMatcher over an unspecified hash. */
  function MatcherName(hash: string -> string, host: string): string {
    "host" + hash(host)
  }

  ghost predicate InjectiveOn(hash: string -> string, hosts: set<string>) {
    forall a, b :: a in hosts && b in hosts && hash(a) == hash(b) ==> a == b
  }

  /** The path rules of one host, in any order. */
  method RenderPaths(routes: PathRoutes) returns (rules: seq<C.PathRule>)
    ensures ListsPaths(rules, routes)
  {
    var order := RangeOrder(routes.Keys);
    rules := [];
    for i := 0 to |order|
      invariant |rules| == i
      invariant forall k :: 0 <= k < i ==> rules[k] == C.PathRule([order[k]], routes[order[k]])
    {
      assert order[i] in order;
      rules := rules + [C.PathRule([order[i]], routes[order[i]])];
    }
    forall i | 0 <= i < |rules| ensures rules[i].paths[0] in routes {
      assert order[i] in order;
    }
  }

  /** The loops of desiredURLMap: read and remove the default backend, then
      write a host rule and a path matcher for every host, in any order. */
  method RenderUrlMap(description: string, routes: Routes, hash: string -> string) returns (um: C.UrlMap)
    requires DEFAULT_BACKEND_KEY in routes && DEFAULT_BACKEND_KEY in routes[DEFAULT_BACKEND_KEY]
    ensures um.description == description
    ensures um.defaultService == routes[DEFAULT_BACKEND_KEY][DEFAULT_BACKEND_KEY]
    ensures Lists(um, routes - {DEFAULT_BACKEND_KEY}, hash)
  {
    var default := routes[DEFAULT_BACKEND_KEY][DEFAULT_BACKEND_KEY];
    var rest := routes - {DEFAULT_BACKEND_KEY};
    um := C.UrlMap(description, default, [], []);
    var order := RangeOrder(rest.Keys);
    for i := 0 to |order|
      invariant |um.hostRules| == |um.pathMatchers| == i
      invariant um.description == description && um.defaultService == default
      invariant forall k :: 0 <= k < i ==> um.hostRules[k].hosts == [order[k]] && ListsHost(um, k, rest, hash)
    {
      assert order[i] in order;
      var name := MatcherName(hash, order[i]);
      var pathRules := RenderPaths(rest[order[i]]);
      var matcher := C.PathMatcher(name, default, pathRules);
      ghost var before := um;
      um := um.(hostRules := um.hostRules + [C.HostRule([order[i]], name)],
                pathMatchers := um.pathMatchers + [matcher]);
      forall k | 0 <= k < i + 1 ensures um.hostRules[k].hosts == [order[k]] && ListsHost(um, k, rest, hash) {
        if k < i {
          assert ListsHost(before, k, rest, hash);
        }
      }
    }
  }

  // ---------- Routing is preserved ----------

  lemma {:induction false} PathTableMeaning(paths: seq<PathEntry>, services: map<string, C.Link>, path: string)
    ensures path in PathTable(paths, services) <==> LastEntry(paths, path).Some?
    ensures path in PathTable(paths, services) ==>
              PathTable(paths, services)[path] == ServiceLink(services, LastEntry(paths, path).value)
  {
    if paths != [] {
      PathTableMeaning(paths[..|paths| - 1], services, path);
    }
  }

  lemma {:induction false} HostTableMeaning(rules: seq<Rule>, services: map<string, C.Link>, host: string)
    ensures host in HostTable(rules, services) <==> LastRule(rules, host).Some?
    ensures host in HostTable(rules, services) ==>
              HostTable(rules, services)[host] == PathTable(LastRule(rules, host).value, services)
  {
    if rules != [] {
      HostTableMeaning(rules[..|rules| - 1], services, host);
    }
  }

  /** A list of rules with pairwise different hosts finds the host it has. */
  lemma {:induction false} FindHostAt(rules: seq<C.HostRule>, i: nat, host: string)
    requires i < |rules| && host in rules[i].hosts
    requires forall k :: 0 <= k < i ==> host !in rules[k].hosts
    ensures FindHost(rules, host) == Some(rules[i].pathMatcher)
  {
    if i > 0 {
      FindHostAt(rules[1..], i - 1, host);
    }
  }

  lemma {:induction false} FindHostNowhere(rules: seq<C.HostRule>, host: string)
    requires forall k :: 0 <= k < |rules| ==> host !in rules[k].hosts
    ensures FindHost(rules, host).None?
  {
    if rules != [] {
      FindHostNowhere(rules[1..], host);
    }
  }

  lemma {:induction false} FindMatcherAt(matchers: seq<C.PathMatcher>, i: nat)
    requires i < |matchers|
    requires forall k :: 0 <= k < i ==> matchers[k].name != matchers[i].name
    ensures FindMatcher(matchers, matchers[i].name) == Some(matchers[i])
  {
    if i > 0 {
      FindMatcherAt(matchers[1..], i - 1);
    }
  }

  lemma {:induction false} FindPathAt(rules: seq<C.PathRule>, i: nat, path: string)
    requires i < |rules| && path in rules[i].paths
    requires forall k :: 0 <= k < i ==> path !in rules[k].paths
    ensures FindPath(rules, path) == Some(rules[i].service)
  {
    if i > 0 {
      FindPathAt(rules[1..], i - 1, path);
    }
  }

  lemma {:induction false} FindPathNowhere(rules: seq<C.PathRule>, path: string)
    requires forall k :: 0 <= k < |rules| ==> path !in rules[k].paths
    ensures FindPath(rules, path).None?
  {
    if rules != [] {
      FindPathNowhere(rules[1..], path);
    }
  }

  /** As many different keys as there are: all of them. */
  lemma ListedEverywhere<K, V>(keys: seq<K>, m: map<K, V>, k: K)
    requires |keys| == |m| && NoDuplicates(keys) && k in m
    requires forall i :: 0 <= i < |keys| ==> keys[i] in m
    ensures exists i :: 0 <= i < |keys| && keys[i] == k
  {
    var listed := set x | x in keys;
    EnumeratesSize(keys, listed);
    if k !in listed {
      assert listed < m.Keys;
      SubsetSize(listed, m.Keys);
    }
  }

  lemma SubsetSize<T>(a: set<T>, b: set<T>)
    requires a < b
    ensures |a| < |b|
  {
    assert b == a + (b - a);
    assert |b| == |a| + |b - a|;
    assert b - a != {};
  }

  lemma PathLookup(rules: seq<C.PathRule>, routes: PathRoutes, path: string)
    requires ListsPaths(rules, routes)
    ensures FindPath(rules, path) == if path in routes then Some(routes[path]) else None
  {
    if path in routes {
      var keys := seq(|rules|, (i: nat) requires i < |rules| => rules[i].paths[0]);
      ListedEverywhere(keys, routes, path);
      var i :| 0 <= i < |keys| && keys[i] == path;
      assert forall k :: 0 <= k < i ==> keys[k] != keys[i];
      FindPathAt(rules, i, path);
    } else {
      FindPathNowhere(rules, path);
    }
  }

  /** Whatever the order in which hosts and paths were written, the URL map
      sends a host and path where the table does. */
  lemma TableLookup(um: C.UrlMap, routes: Routes, hash: string -> string, host: string, path: string)
    requires Lists(um, routes, hash) && InjectiveOn(hash, routes.Keys)
    ensures Lookup(um, host, path) ==
            if host in routes && path in routes[host] then routes[host][path] else um.defaultService
  {
    var n := |um.hostRules|;
    if host in routes {
      var i := HostPosition(um, routes, hash, host);
      forall k | 0 <= k < i ensures host !in um.hostRules[k].hosts {
        assert ListsHost(um, k, routes, hash);
        assert um.hostRules[k].hosts == [um.hostRules[k].hosts[0]];
      }
      FindHostAt(um.hostRules, i, host);
      forall k | 0 <= k < i ensures um.pathMatchers[k].name != um.pathMatchers[i].name {
        MatcherNamesDiffer(um, routes, hash, k, i);
      }
      FindMatcherAt(um.pathMatchers, i);
      assert ListsHost(um, i, routes, hash);
      PathLookup(um.pathMatchers[i].pathRules, routes[host], path);
    } else {
      forall k | 0 <= k < n ensures host !in um.hostRules[k].hosts {
        assert ListsHost(um, k, routes, hash);
        assert um.hostRules[k].hosts == [um.hostRules[k].hosts[0]];
      }
      FindHostNowhere(um.hostRules, host);
    }
  }

  lemma HostPosition(um: C.UrlMap, routes: Routes, hash: string -> string, host: string) returns (i: nat)
    requires Lists(um, routes, hash) && host in routes
    ensures i < |um.hostRules| && um.hostRules[i].hosts == [host]
  {
    var n := |um.hostRules|;
    var keys := seq(n, k requires 0 <= k < n => FirstHost(um.hostRules[k]));
    forall k | 0 <= k < n ensures um.hostRules[k].hosts == [keys[k]] && keys[k] in routes {
      assert ListsHost(um, k, routes, hash);
    }
    ListedEverywhere(keys, routes, host);
    i :| 0 <= i < n && keys[i] == host;
  }

  function FirstHost(rule: C.HostRule): string {
    if rule.hosts == [] then "" else rule.hosts[0]
  }

  lemma MatcherNamesDiffer(um: C.UrlMap, routes: Routes, hash: string -> string, k: nat, i: nat)
    requires Lists(um, routes, hash) && InjectiveOn(hash, routes.Keys)
    requires k < i < |um.hostRules|
    ensures um.pathMatchers[k].name != um.pathMatchers[i].name
  {
    assert ListsHost(um, k, routes, hash) && ListsHost(um, i, routes, hash);
    var a, b := um.hostRules[k].hosts[0], um.hostRules[i].hosts[0];
    assert um.hostRules[k].hosts == [a] && um.hostRules[i].hosts == [b];
    assert MatcherName(hash, a)[4..] == hash(a) && MatcherName(hash, b)[4..] == hash(b);
  }

  /** `um` is a translation of the ingress. */
  ghost predicate Translates(um: C.UrlMap, ing: Spec, services: map<string, C.Link>, hash: string -> string) {
    && ing.backend.Some? && AllFound(services, MentionedBackends(ing))
    && um.defaultService == ServiceLink(services, ing.backend.value)
    && Lists(um, HostTable(ing.rules, services) - {DEFAULT_BACKEND_KEY}, hash)
  }

  /** The translation preserves routing: every host and path expression goes to
      the service of the backend the ingress names for it. The one host that is
      lost is the literal DefaultBackend, whose rules the default backend
      overwrites. */
  lemma RoutingPreserved(um: C.UrlMap, ing: Spec, services: map<string, C.Link>, hash: string -> string, host: string,
                         path: string)
    requires Translates(um, ing, services, hash) && InjectiveOn(hash, HostTable(ing.rules, services).Keys)
    ensures Lookup(um, host, path) ==
            ServiceLink(services, if host == DEFAULT_BACKEND_KEY then ing.backend.value else Route(ing, host, path))
  {
    var routes := HostTable(ing.rules, services);
    TableLookup(um, routes - {DEFAULT_BACKEND_KEY}, hash, host, path);
    HostTableMeaning(ing.rules, services, host);
    if LastRule(ing.rules, host).Some? {
      PathTableMeaning(LastRule(ing.rules, host).value, services, path);
    }
  }

  /** A rule for the literal host DefaultBackend, if there is one, says nothing
      that differs from the default backend. */
  ghost predicate DefaultHostHarmless(ing: Spec, services: map<string, C.Link>)
    requires ing.backend.Some?
  {
    var paths := LastRule(ing.rules, DEFAULT_BACKEND_KEY);
    paths.Some? ==> forall path :: LastEntry(paths.value, path).Some? ==>
      ServiceLink(services, LastEntry(paths.value, path).value) == ServiceLink(services, ing.backend.value)
  }

  /** The exact condition under which no host at all is lost. */
  lemma RoutingExact(um: C.UrlMap, ing: Spec, services: map<string, C.Link>, hash: string -> string)
    requires Translates(um, ing, services, hash) && InjectiveOn(hash, HostTable(ing.rules, services).Keys)
    ensures DefaultHostHarmless(ing, services) <==>
            forall host, path :: Lookup(um, host, path) == ServiceLink(services, Route(ing, host, path))
  {
    forall host, path
      ensures Lookup(um, host, path) ==
              ServiceLink(services, if host == DEFAULT_BACKEND_KEY then ing.backend.value else Route(ing, host, path))
    {
      RoutingPreserved(um, ing, services, hash, host, path);
    }
    if !DefaultHostHarmless(ing, services) {
      var paths := LastRule(ing.rules, DEFAULT_BACKEND_KEY).value;
      var path :| LastEntry(paths, path).Some? &&
        ServiceLink(services, LastEntry(paths, path).value) != ServiceLink(services, ing.backend.value);
      assert Lookup(um, DEFAULT_BACKEND_KEY, path) != ServiceLink(services, Route(ing, DEFAULT_BACKEND_KEY, path));
    }
  }

  /** The ingress of the next lemma. */
  function LostHostIngress(): Spec {
    var rule := Rule("DefaultBackend", Some([PathEntry("/p", Backend("x", "80"))]));
    Spec("ns", Some(Backend("d", "80")), [rule], "ip", true, "", false)
  }

  /** A rule for the literal host DefaultBackend that is lost: it names one
      service and is sent to another. */
  lemma DefaultHostIsLost(services: map<string, C.Link>, hash: string -> string)
    requires "d" in services && "x" in services && services["d"] != services["x"]
    ensures exists um :: Translates(um, LostHostIngress(), services, hash)
    ensures forall um :: Translates(um, LostHostIngress(), services, hash) ==>
              && Lookup(um, "DefaultBackend", "/p") == services["d"]
              && ServiceLink(services, Route(LostHostIngress(), "DefaultBackend", "/p")) == services["x"]
  {
    var ing := LostHostIngress();
    var rule, entry := ing.rules[0], PathEntry("/p", Backend("x", "80"));
    assert ing.rules[..0] == [] && [entry][..0] == [];
    assert HostTable(ing.rules, services) == map[DEFAULT_BACKEND_KEY := PathTable([entry], services)];
    assert RuleBackends(ing.rules) == PathBackends([entry]) == [entry.backend];
    assert MentionedBackends(ing) == [Backend("d", "80"), entry.backend];
    assert LastRule(ing.rules, DEFAULT_BACKEND_KEY) == Some([entry]);
    assert LastEntry([entry], "/p") == Some(entry.backend);
    assert HostTable(ing.rules, services) - {DEFAULT_BACKEND_KEY} == map[];
    assert Translates(C.UrlMap("", services["d"], [], []), ing, services, hash);
    forall um | Translates(um, ing, services, hash) ensures Lookup(um, DEFAULT_BACKEND_KEY, "/p") == services["d"] {
      RoutingPreserved(um, ing, services, hash, DEFAULT_BACKEND_KEY, "/p");
    }
  }

  /** A rule without host and path is for every host and every path. */
  lemma EmptyMeansAll(um: C.UrlMap, ing: Spec, services: map<string, C.Link>, hash: string -> string, be: Backend)
    requires Translates(um, ing, services, hash) && ing.rules == [Rule("", Some([PathEntry("", be)]))]
    ensures Lookup(um, "*", "/*") == ServiceLink(services, be)
  {
    var entry := PathEntry("", be);
    assert ing.rules[..0] == [] && [entry][..0] == [];
    assert HostTable(ing.rules, services) == map["*" := PathTable([entry], services)];
    assert LastRule(ing.rules, "*") == Some([entry]) && LastEntry([entry], "/*") == Some(be);
    assert DEFAULT_BACKEND_KEY != "*";
    RoutingPreserved(um, ing, services, hash, "*", "/*");
  }

  /** Where a URL map sends a request is a service it refers to. */
  lemma LookupRefers(um: C.UrlMap, host: string, path: string)
    ensures C.RefersToService(um, Lookup(um, host, path))
  {
    var name := FindHost(um.hostRules, host);
    if name.Some? && FindMatcher(um.pathMatchers, name.value).Some? {
      var m := FindMatcher(um.pathMatchers, name.value).value;
      var i := MatcherIsListed(um.pathMatchers, name.value);
      if FindPath(m.pathRules, path).Some? {
        var j := PathIsListed(m.pathRules, path);
      }
    }
  }

  lemma {:induction false} MatcherIsListed(matchers: seq<C.PathMatcher>, name: string) returns (i: nat)
    requires FindMatcher(matchers, name).Some?
    ensures i < |matchers| && matchers[i] == FindMatcher(matchers, name).value
  {
    if matchers[0].name == name {
      i := 0;
    } else {
      var k := MatcherIsListed(matchers[1..], name);
      i := k + 1;
    }
  }

  lemma {:induction false} PathIsListed(rules: seq<C.PathRule>, path: string) returns (i: nat)
    requires FindPath(rules, path).Some?
    ensures i < |rules| && rules[i].service == FindPath(rules, path).value
  {
    if path in rules[0].paths {
      i := 0;
    } else {
      var k := PathIsListed(rules[1..], path);
      i := k + 1;
    }
  }

  /** Two runs that write the rules in different orders route alike. */
  lemma OrdersRouteAlike(um: C.UrlMap, um': C.UrlMap, ing: Spec, services: map<string, C.Link>, hash: string -> string,
                         host: string, path: string)
    requires Translates(um, ing, services, hash) && Translates(um', ing, services, hash)
    requires InjectiveOn(hash, HostTable(ing.rules, services).Keys)
    ensures Lookup(um, host, path) == Lookup(um', host, path)
  {
    RoutingPreserved(um, ing, services, hash, host, path);
    RoutingPreserved(um', ing, services, hash, host, path);
  }

  // ---------- What the order of iteration can change ----------

  lemma PathRulesPermute(rules: seq<C.PathRule>, rules': seq<C.PathRule>, routes: PathRoutes)
    requires ListsPaths(rules, routes) && ListsPaths(rules', routes)
    ensures multiset(rules) == multiset(rules')
  {
    var all := set p | p in routes :: C.PathRule([p], routes[p]);
    PathRulesEnumerate(rules, routes, all);
    PathRulesEnumerate(rules', routes, all);
    EnumerationsPermute(rules, rules', all);
  }

  lemma PathRulesEnumerate(rules: seq<C.PathRule>, routes: PathRoutes, all: set<C.PathRule>)
    requires ListsPaths(rules, routes) && all == set p | p in routes :: C.PathRule([p], routes[p])
    ensures Enumerates(rules, all)
  {
    forall r | r in rules ensures r in all {
      var i :| 0 <= i < |rules| && rules[i] == r;
      assert r == C.PathRule([r.paths[0]], routes[r.paths[0]]);
    }
    forall r | r in all ensures r in rules {
      var p :| p in routes && r == C.PathRule([p], routes[p]);
      var keys := seq(|rules|, i requires 0 <= i < |rules| => rules[i].paths[0]);
      ListedEverywhere(keys, routes, p);
      var i :| 0 <= i < |keys| && keys[i] == p;
      assert rules[i] == r;
    }
  }

  lemma HostRulesEnumerate(um: C.UrlMap, routes: Routes, hash: string -> string, all: set<C.HostRule>)
    requires Lists(um, routes, hash) && all == set h | h in routes :: C.HostRule([h], MatcherName(hash, h))
    ensures Enumerates(um.hostRules, all)
  {
    forall r | r in um.hostRules ensures r in all {
      var i :| 0 <= i < |um.hostRules| && um.hostRules[i] == r;
      assert ListsHost(um, i, routes, hash);
      assert r == C.HostRule([r.hosts[0]], MatcherName(hash, r.hosts[0]));
    }
    forall r | r in all ensures r in um.hostRules {
      var h :| h in routes && r == C.HostRule([h], MatcherName(hash, h));
      var i := HostPosition(um, routes, hash, h);
      assert ListsHost(um, i, routes, hash);
      assert um.hostRules[i] == r;
    }
  }

  /** Every order writes the same host rules and, for each host, the same path
      rules; only their order differs. */
  lemma SameRulesInEveryOrder(um: C.UrlMap, um': C.UrlMap, routes: Routes, hash: string -> string)
    requires Lists(um, routes, hash) && Lists(um', routes, hash)
    ensures multiset(um.hostRules) == multiset(um'.hostRules)
    ensures forall i, j ::
            (0 <= i < |um.hostRules| && 0 <= j < |um'.hostRules| && um.hostRules[i].hosts == um'.hostRules[j].hosts) ==>
              multiset(um.pathMatchers[i].pathRules) == multiset(um'.pathMatchers[j].pathRules)
  {
    var all := set h | h in routes :: C.HostRule([h], MatcherName(hash, h));
    HostRulesEnumerate(um, routes, hash, all);
    HostRulesEnumerate(um', routes, hash, all);
    EnumerationsPermute(um.hostRules, um'.hostRules, all);
    forall i, j | 0 <= i < |um.hostRules| && 0 <= j < |um'.hostRules| && um.hostRules[i].hosts == um'.hostRules[j].hosts
      ensures multiset(um.pathMatchers[i].pathRules) == multiset(um'.pathMatchers[j].pathRules)
    {
      assert ListsHost(um, i, routes, hash) && ListsHost(um', j, routes, hash);
      PathRulesPermute(um.pathMatchers[i].pathRules, um'.pathMatchers[j].pathRules, routes[um.hostRules[i].hosts[0]]);
    }
  }

  /** At most one host, and at most one path for each. */
  predicate SingleRoute(routes: Routes) {
    |routes| <= 1 && forall h :: h in routes ==> |routes[h]| <= 1
  }

  lemma SingletonKeys<K, V>(m: map<K, V>, a: K, b: K)
    requires |m| <= 1 && a in m && b in m
    ensures a == b
  {
    if a != b {
      assert {a} < m.Keys;
      SubsetSize({a}, m.Keys);
    }
  }

  lemma SingleListing(um: C.UrlMap, um': C.UrlMap, routes: Routes, hash: string -> string)
    requires SingleRoute(routes) && Lists(um, routes, hash) && Lists(um', routes, hash)
    requires um.description == um'.description && um.defaultService == um'.defaultService
    ensures um == um'
  {
    if |um.hostRules| == 1 {
      assert ListsHost(um, 0, routes, hash) && ListsHost(um', 0, routes, hash);
      var host, host' := um.hostRules[0].hosts[0], um'.hostRules[0].hosts[0];
      SingletonKeys(routes, host, host');
      assert um.hostRules[0].hosts == [host] == um'.hostRules[0].hosts;
      var rules, rules' := um.pathMatchers[0].pathRules, um'.pathMatchers[0].pathRules;
      if |rules| == 1 {
        var p, p' := rules[0].paths[0], rules'[0].paths[0];
        SingletonKeys(routes[host], p, p');
        assert rules[0].paths == [p] == rules'[0].paths;
        assert rules == [rules[0]] && rules' == [rules'[0]];
      }
      assert rules == rules';
      assert um.hostRules == [um.hostRules[0]] && um'.hostRules == [um'.hostRules[0]];
      assert um.pathMatchers == [um.pathMatchers[0]] && um'.pathMatchers == [um'.pathMatchers[0]];
    }
  }

  function SwapFirst<T>(s: seq<T>): (r: seq<T>)
    requires |s| >= 2
    ensures |r| == |s| && r[0] == s[1] && r[1] == s[0]
    ensures forall i :: 2 <= i < |s| ==> r[i] == s[i]
  {
    [s[1], s[0]] + s[2..]
  }

  /** With two hosts, another order of the same rules is a different map. */
  lemma SwapHosts(um: C.UrlMap, routes: Routes, hash: string -> string) returns (um': C.UrlMap)
    requires Lists(um, routes, hash) && |routes| >= 2
    ensures Lists(um', routes, hash) && um' != um
    ensures um'.description == um.description && um'.defaultService == um.defaultService
  {
    um' := um.(hostRules := SwapFirst(um.hostRules), pathMatchers := SwapFirst(um.pathMatchers));
    forall i | 0 <= i < |um'.hostRules| ensures ListsHost(um', i, routes, hash) {
      assert ListsHost(um, if i < 2 then 1 - i else i, routes, hash);
    }
    assert um'.hostRules[0] != um.hostRules[0];
  }

  /** So it is with two paths for one host. */
  lemma SwapPaths(um: C.UrlMap, routes: Routes, hash: string -> string, host: string) returns (um': C.UrlMap)
    requires Lists(um, routes, hash) && host in routes && |routes[host]| >= 2
    ensures Lists(um', routes, hash) && um' != um
    ensures um'.description == um.description && um'.defaultService == um.defaultService
  {
    var k := HostPosition(um, routes, hash, host);
    assert ListsHost(um, k, routes, hash);
    var m := um.pathMatchers[k];
    var m' := m.(pathRules := SwapFirst(m.pathRules));
    um' := um.(pathMatchers := um.pathMatchers[k := m']);
    forall i | 0 <= i < |um'.hostRules| ensures ListsHost(um', i, routes, hash) {
      assert ListsHost(um, i, routes, hash);
    }
    assert m'.pathRules[0] != m.pathRules[0];
    assert um'.pathMatchers[k] != um.pathMatchers[k];
  }

  /** The exact condition under which a second run, with another iteration
      order, is sure to compute the same URL map: at most one host with at most
      one path. With more, some order gives a map that differs. */
  lemma OrderSensitivity(um: C.UrlMap, routes: Routes, hash: string -> string)
    requires Lists(um, routes, hash)
    ensures SingleRoute(routes) <==>
            forall u ::
              (Lists(u, routes, hash) && u.description == um.description && u.defaultService == um.defaultService) ==>
              u == um
  {
    if SingleRoute(routes) {
      forall um' | Lists(um', routes, hash) && um'.description == um.description &&
          um'.defaultService == um.defaultService
        ensures um' == um
      {
        SingleListing(um', um, routes, hash);
      }
    } else if |routes| >= 2 {
      var um' := SwapHosts(um, routes, hash);
    } else {
      var host :| host in routes && |routes[host]| > 1;
      var um' := SwapPaths(um, routes, hash, host);
    }
  }
}
