/** The load balancer status that kubemci keeps in the description of a GCP
    resource, and the removal of clusters from it. */
module Status {
  import opened Prelude
  import opened Sorting

  datatype LoadBalancerStatus = LoadBalancerStatus(
    description: string,
    lbName: string,
    clusters: seq<string>,
    ipAddress: string)

  /** ToString and FromString. The JSON text itself is not modelled: every
      result holds for any codec that satisfies `Lawful`. */
  datatype Codec = Codec(toStr: LoadBalancerStatus -> string, fromStr: string -> Option<LoadBalancerStatus>)

  ghost predicate Lawful(c: Codec) {
    && (forall s :: c.fromStr(c.toStr(s)) == Some(s))
    && (forall d: string :: |d| > 0 && d[0] == 'h' ==> c.fromStr(d).None?)
  }

  /** The description without the given clusters; a description that is not a
      status stays as it is. */
  function StatusWithout(c: Codec, desc: string, drop: set<string>): (r: string)
  {
    match c.fromStr(desc)
    case None => desc
    case Some(s) => c.toStr(s.(clusters := Without(s.clusters, Self, drop)))
  }

  /** status.RemoveClusters. */
  method RemoveClusters(c: Codec, desc: string, clustersToRemove: seq<string>) returns (r: string, err: Err)
    ensures err == Nil && r == StatusWithout(c, desc, Elements(clustersToRemove))
  {
    err := Nil;
    var status := c.fromStr(desc);
    if status.None? {
      return desc, Nil;
    }
    var removeMap := Marked(clustersToRemove);
    var newClusters := Unmarked(status.value.clusters, Self, removeMap);
    r := c.toStr(status.value.(clusters := newClusters));
  }

  /** A plain text is handed back, and is no error. */
  method PlainTextIsNoError(c: Codec, clustersToRemove: seq<string>) returns (r: string, err: Err)
    requires Lawful(c)
    ensures err == Nil && r == "http forwarding rule"
  {
    r, err := RemoveClusters(c, "http forwarding rule", clustersToRemove);
  }

  /** Removing clusters twice is removing them at once, in either order. */
  lemma StatusWithoutTwice(c: Codec, desc: string, a: set<string>, b: set<string>)
    requires Lawful(c)
    ensures StatusWithout(c, StatusWithout(c, desc, a), b) == StatusWithout(c, desc, a + b)
  {
    var s := c.fromStr(desc);
    if s.Some? {
      WithoutTwice(s.value.clusters, Self, a, b);
    }
  }
}
