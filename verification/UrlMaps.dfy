/** The URL map of a load balancer, which also carries its status. */
module UrlMaps {
  import opened Prelude
  import opened Names
  import opened Ingress
  import opened Sorting
  import opened Status
  import opened Translation
  import C = Cloud

  function Link(namer: Namer): C.Link {
    C.SelfLink(C.UrlMaps, namer.Name(UrlMap))
  }

  /** The status desiredStatusString encodes. */
  function DesiredStatus(lbName: string, ip: string, clusters: seq<string>): LoadBalancerStatus {
    LoadBalancerStatus("URL map for kubernetes multicluster loadbalancer " + lbName, lbName, Sort(clusters), ip)
  }

  /** What one call of EnsureURLMap is asked to do. */
  datatype Job = Job(namer: Namer, codec: Codec, hash: string -> string, lbName: string, ip: string,
                     clusters: seq<string>,
                     ing: Spec, services: map<string, C.Link>, force: bool, reliable: bool)

  /** Every backend of the ingress has a backend service. */
  predicate Translatable(job: Job) {
    job.ing.backend.Some? && AllFound(job.services, MentionedBackends(job.ing))
  }

  /** `want` is a URL map for this ingress: its status, and its rules in some order. */
  ghost predicate Wanted(job: Job, want: C.UrlMap) {
    && want.description == job.codec.toStr(DesiredStatus(job.lbName, job.ip, job.clusters))
    && Translates(want, job.ing, job.services, job.hash)
  }

  /** There is only one URL map to want if no iteration order can matter. */
  lemma WantedUnique(job: Job, a: C.UrlMap, b: C.UrlMap)
    requires Wanted(job, a) && Wanted(job, b)
    requires SingleRoute(HostTable(job.ing.rules, job.services) - {DEFAULT_BACKEND_KEY})
    ensures a == b
  {
    SingleListing(a, b, HostTable(job.ing.rules, job.services) - {DEFAULT_BACKEND_KEY}, job.hash);
  }

  /** What EnsureURLMap does to the table of URL maps. */
  ghost predicate Outcome(job: Job, t: C.Table<C.UrlMap>, t': C.Table<C.UrlMap>, link: C.Link, err: Err,
                          want: Option<C.UrlMap>) {
    && (want.Some? <==> Translatable(job))
    && (want.None? ==> err != Nil && t' == t)
    && (want.Some? ==>
          && Wanted(job, want.value)
          && C.Reconciled(t, t', job.namer.Name(UrlMap), want.value, job.force, err, job.reliable))
    && link == (if err == Nil then Link(job.namer) else C.NoLink)
  }

  function WithoutClusters(codec: Codec, um: C.UrlMap, drop: set<string>): C.UrlMap {
    um.(description := StatusWithout(codec, um.description, drop))
  }

  /** What RemoveClustersFromStatus does to the table of URL maps. */
  ghost predicate StatusRemoved(codec: Codec, name: string, drop: set<string>, t: C.Table<C.UrlMap>,
                                t': C.Table<C.UrlMap>,
                                err: Err, reliable: bool) {
    && (t' == t || (name in t && C.Wrote(t, t', name, WithoutClusters(codec, t[name].spec, drop))))
    && (err == Nil ==> name in t && C.Wrote(t, t', name, WithoutClusters(codec, t[name].spec, drop)))
    && (err == NotFound ==> name !in t)
    && (reliable ==> err == if name in t then Nil else NotFound)
  }

  class Syncer {
    const namer: Namer
    const cloud: C.Cloud
    const codec: Codec
    const hash: string -> string

    constructor (namer: Namer, cloud: C.Cloud, codec: Codec, hash: string -> string)
      ensures this.namer == namer && this.cloud == cloud && this.codec == codec && this.hash == hash
    {
      this.namer, this.cloud, this.codec, this.hash := namer, cloud, codec, hash;
    }

    /** desiredURLMap. */
    method DesiredUrlMap(lbName: string, ip: string, clusters: seq<string>, ing: Spec, services: map<string, C.Link>)
      returns (want: C.UrlMap, err: Err)
      ensures err == Nil <==> ing.backend.Some? && AllFound(services, MentionedBackends(ing))
      ensures err == Nil ==> Translates(want, ing, services, hash)
      ensures err == Nil ==> want.description == codec.toStr(DesiredStatus(lbName, ip, clusters))
    {
      var description := codec.toStr(DesiredStatus(lbName, ip, clusters));
      var routes, routesErr := IngToUrlMap(ing, services);
      if routesErr != Nil {
        return C.UrlMap("", C.NoLink, [], []), Other;
      }
      assert ing.backend.value in MentionedBackends(ing) by {
        assert MentionedBackends(ing)[0] == ing.backend.value;
      }
      want := RenderUrlMap(description, routes, hash);
      assert routes - {DEFAULT_BACKEND_KEY} == HostTable(ing.rules, services) - {DEFAULT_BACKEND_KEY};
      err := Nil;
    }

    method EnsureUrlMap(lbName: string, ip: string, clusters: seq<string>, ing: Spec, services: map<string, C.Link>,
                        force: bool)
      returns (link: C.Link, err: Err, ghost want: Option<C.UrlMap>)
      modifies cloud`urlMaps
      ensures Outcome(Job(namer, codec, hash, lbName, ip, clusters, ing, services, force, cloud.reliable),
                      old(cloud.urlMaps), cloud.urlMaps, link, err, want)
    {
      hide Translates;
      link, want := C.NoLink, None;
      var desired, desiredErr := DesiredUrlMap(lbName, ip, clusters, ing, services);
      if desiredErr != Nil {
        return C.NoLink, Other, None;
      }
      want := Some(desired);
      var name := namer.Name(UrlMap);
      var existing, getErr := C.Fetch(cloud.urlMaps, name, cloud.reliable);
      if getErr == Nil {
        if existing.value.spec == desired {
          return Link(namer), Nil, want;
        }
        if !force {
          return C.NoLink, Other, want;
        }
        cloud.urlMaps, err := C.Replace(cloud.urlMaps, name, desired, Some(existing.value.fingerprint), cloud.reliable);
      } else {
        cloud.urlMaps, err := C.Insert(cloud.urlMaps, name, desired, cloud.reliable);
      }
      if err != Nil {
        return;
      }
      existing, err := C.Fetch(cloud.urlMaps, name, cloud.reliable);
      if err == Nil {
        link := Link(namer);
      }
    }

    /** GetLoadBalancerStatus; NotFound is preserved. */
    method GetLoadBalancerStatus() returns (status: Option<LoadBalancerStatus>, err: Err)
      ensures err == Nil <==> status.Some?
      ensures status.Some? ==>
                namer.Name(UrlMap) in cloud.urlMaps &&
                    status == codec.fromStr(cloud.urlMaps[namer.Name(UrlMap)].spec.description)
      ensures err == NotFound ==> namer.Name(UrlMap) !in cloud.urlMaps
      ensures cloud.reliable ==> status == StatusOf(codec, cloud.urlMaps, namer.Name(UrlMap))
      ensures cloud.reliable ==> (err == NotFound <==> namer.Name(UrlMap) !in cloud.urlMaps)
    {
      var um, getErr := C.Fetch(cloud.urlMaps, namer.Name(UrlMap), cloud.reliable);
      if getErr == Nil {
        status := codec.fromStr(um.value.spec.description);
        err := if status.Some? then Nil else Other;
      } else {
        status, err := None, if getErr == NotFound then NotFound else Other;
      }
    }

    /** RemoveClustersFromStatus; the existing record is edited and written back. */
    method RemoveClustersFromStatus(clusters: seq<string>) returns (err: Err)
      modifies cloud`urlMaps
      ensures StatusRemoved(codec, namer.Name(UrlMap), Elements(clusters), old(cloud.urlMaps), cloud.urlMaps, err,
                            cloud.reliable)
    {
      var name := namer.Name(UrlMap);
      var existing, getErr := C.Fetch(cloud.urlMaps, name, cloud.reliable);
      if getErr != Nil {
        return if getErr == NotFound then NotFound else Other;
      }
      var description, statusErr := RemoveClusters(codec, existing.value.spec.description, clusters);
      if statusErr != Nil {
        return Other;
      }
      var desired := existing.value.spec.(description := description);
      cloud.urlMaps, err := C.Replace(cloud.urlMaps, name, desired, Some(existing.value.fingerprint), cloud.reliable);
      if err != Nil {
        return;
      }
      existing, err := C.Fetch(cloud.urlMaps, name, cloud.reliable);
    }

    method DeleteUrlMap() returns (err: Err)
      modifies cloud`urlMaps
      ensures C.Purged(old(cloud.urlMaps), cloud.urlMaps, namer.Name(UrlMap),
                       cloud.strict &&
                           C.UrlMapInUse(cloud.httpProxies, cloud.httpsProxies,
                                         namer.Name(UrlMap)), err, cloud.reliable)
    {
      err := cloud.DeleteUrlMap(namer.Name(UrlMap));
      if err == NotFound {
        err := Nil;
      }
    }
  }

  function StatusOf(codec: Codec, t: C.Table<C.UrlMap>, name: string): Option<LoadBalancerStatus> {
    if name in t then codec.fromStr(t[name].spec.description) else None
  }
}
