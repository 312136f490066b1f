/** Target proxies, which tie a URL map (and a certificate) to forwarding rules. */
module TargetProxies {
  import opened Prelude
  import opened Names
  import C = Cloud

  function HttpLink(namer: Namer): C.Link {
    C.SelfLink(C.HttpProxies, namer.Name(HttpProxy))
  }

  function HttpsLink(namer: Namer): C.Link {
    C.SelfLink(C.HttpsProxies, namer.Name(HttpsProxy))
  }

  function DesiredHttp(lbName: string, urlMap: C.Link): C.HttpProxy {
    C.HttpProxy("Target http proxy for kubernetes multicluster loadbalancer " + lbName, urlMap)
  }

  function DesiredHttps(lbName: string, urlMap: C.Link, cert: C.Link): C.HttpsProxy {
    C.HttpsProxy("Target https proxy for kubernetes multicluster loadbalancer " + lbName, urlMap, [cert])
  }

  /** What ensuring a proxy may do. An existing proxy has only its URL map set:
      `patched` is the existing record with that one field replaced, so every
      other difference to the wanted record remains. */
  ghost predicate Outcome<T>(t: C.Table<T>, t': C.Table<T>, name: string, want: T, patched: T, force: bool, err: Err,
                             reliable: bool) {
    var target := if name in t then patched else want;
    && (t' == t || C.Wrote(t, t', name, target))
    && (name in t && (!force || t[name].spec == want) ==> t' == t)
    && (err == Nil ==> name in t' && t'[name].spec == target && (force || name !in t || t[name].spec == want))
    && (reliable ==> (err == Nil <==> force || name !in t || t[name].spec == want))
  }

  function PatchedHttp(t: C.Table<C.HttpProxy>, name: string, want: C.HttpProxy): C.HttpProxy {
    if name in t then t[name].spec.(urlMap := want.urlMap) else want
  }

  function PatchedHttps(t: C.Table<C.HttpsProxy>, name: string, want: C.HttpsProxy): C.HttpsProxy {
    if name in t then t[name].spec.(urlMap := want.urlMap) else want
  }

  class Syncer {
    const namer: Namer
    const cloud: C.Cloud

    constructor (namer: Namer, cloud: C.Cloud)
      ensures this.namer == namer && this.cloud == cloud
    {
      this.namer, this.cloud := namer, cloud;
    }

    /** EnsureHTTPTargetProxy. */
    method EnsureHttpProxy(lbName: string, urlMap: C.Link, force: bool) returns (link: C.Link, err: Err)
      modifies cloud`httpProxies
      ensures var name, want := namer.Name(HttpProxy), DesiredHttp(lbName, urlMap);
              Outcome(old(cloud.httpProxies), cloud.httpProxies, name, want,
                      PatchedHttp(old(cloud.httpProxies), name, want), force, err, cloud.reliable)
      ensures link == if err == Nil then HttpLink(namer) else C.NoLink
    {
      link := C.NoLink;
      var want := DesiredHttp(lbName, urlMap);
      var name := namer.Name(HttpProxy);
      var existing, getErr := C.Fetch(cloud.httpProxies, name, cloud.reliable);
      if getErr == Nil {
        if existing.value.spec == want {
          return HttpLink(namer), Nil;
        }
        if !force {
          return C.NoLink, Other;
        }
        err := cloud.SetHttpProxyUrlMap(name, want.urlMap);
      } else {
        cloud.httpProxies, err := C.Insert(cloud.httpProxies, name, want, cloud.reliable);
      }
      if err != Nil {
        return;
      }
      existing, err := C.Fetch(cloud.httpProxies, name, cloud.reliable);
      if err == Nil {
        link := HttpLink(namer);
      }
    }

    /** EnsureHTTPSTargetProxy. */
    method EnsureHttpsProxy(lbName: string, urlMap: C.Link, cert: C.Link, force: bool) returns (link: C.Link, err: Err)
      modifies cloud`httpsProxies
      ensures var name, want := namer.Name(HttpsProxy), DesiredHttps(lbName, urlMap, cert);
              Outcome(old(cloud.httpsProxies), cloud.httpsProxies, name, want,
                      PatchedHttps(old(cloud.httpsProxies), name, want), force, err, cloud.reliable)
      ensures link == if err == Nil then HttpsLink(namer) else C.NoLink
    {
      link := C.NoLink;
      var want := DesiredHttps(lbName, urlMap, cert);
      var name := namer.Name(HttpsProxy);
      var existing, getErr := C.Fetch(cloud.httpsProxies, name, cloud.reliable);
      if getErr == Nil {
        if existing.value.spec == want {
          return HttpsLink(namer), Nil;
        }
        if !force {
          return C.NoLink, Other;
        }
        err := cloud.SetHttpsProxyUrlMap(name, want.urlMap);
      } else {
        cloud.httpsProxies, err := C.Insert(cloud.httpsProxies, name, want, cloud.reliable);
      }
      if err != Nil {
        return;
      }
      existing, err := C.Fetch(cloud.httpsProxies, name, cloud.reliable);
      if err == Nil {
        link := HttpsLink(namer);
      }
    }

    /** DeleteTargetProxies. */
    method DeleteTargetProxies() returns (err: Err, ghost httpErr: Err, ghost httpsErr: Err)
      modifies cloud`httpProxies, cloud`httpsProxies
      ensures C.Purged(old(cloud.httpProxies), cloud.httpProxies, namer.Name(HttpProxy),
                       cloud.strict &&
                           C.ProxyInUse(cloud.forwardingRules, C.HttpProxies,
                                        namer.Name(HttpProxy)), httpErr, cloud.reliable)
      ensures C.Purged(old(cloud.httpsProxies), cloud.httpsProxies, namer.Name(HttpsProxy),
                       cloud.strict &&
                           C.ProxyInUse(cloud.forwardingRules, C.HttpsProxies,
                                        namer.Name(HttpsProxy)), httpsErr, cloud.reliable)
      ensures err == Nil <==> httpErr == Nil && httpsErr == Nil
    {
      err := Nil;
      var e := cloud.DeleteHttpProxy(namer.Name(HttpProxy));
      if e == NotFound {
        e := Nil;
      }
      httpErr := e;
      err := Append(err, e);
      e := cloud.DeleteHttpsProxy(namer.Name(HttpsProxy));
      if e == NotFound {
        e := Nil;
      }
      httpsErr := e;
      err := Append(err, e);
    }
  }
}
