/** The firewall rule that lets health checks reach the nodes of every cluster. */
module FirewallRules {
  import opened Prelude
  import opened Names
  import opened Ingress
  import opened Sorting
  import C = Cloud

  const L7_SRC_RANGES := ["130.211.0.0/22", "35.191.0.0/16"]
  const DEFAULT_PRIORITY := 1000

  /** The first tag of an instance of the cluster's first group. */
  function FirstTag(w: World, groups: Groups): Option<string> {
    var i := w.instance(groups[0]);
    if i.None? || i.value.tags == [] then None else Some(i.value.tags[0])
  }

  function NetworkOf(i: Instance): string {
    if |i.networks| > 0 then i.networks[0] else ""
  }

  ghost predicate TagsKnown(w: World, igs: map<string, Groups>) {
    forall c :: c in igs ==> FirstTag(w, igs[c]).Some?
  }

  /** The first tag of each cluster. */
  function TagOf(w: World, igs: map<string, Groups>): string -> string {
    c => if c in igs && FirstTag(w, igs[c]).Some? then FirstTag(w, igs[c]).value else ""
  }

  /** getInstances: an instance of the first group of each cluster. */
  method GetInstances(w: World, igs: map<string, Groups>, clusters: seq<string>) returns (instances: seq<Instance>,
      err: Err)
    requires Enumerates(clusters, igs.Keys)
    ensures err == Nil <==> forall c :: c in igs ==> w.instance(igs[c][0]).Some?
    ensures err == Nil ==> |instances| == |clusters|
    ensures err == Nil ==>
              forall k :: 0 <= k < |clusters| ==>
                    clusters[k] in igs && w.instance(igs[clusters[k]][0]) == Some(instances[k])
  {
    instances := [];
    for i := 0 to |clusters|
      invariant |instances| == i
      invariant forall k :: 0 <= k < i ==> clusters[k] in igs && w.instance(igs[clusters[k]][0]) == Some(instances[k])
    {
      assert clusters[i] in clusters;
      var instance := w.instance(igs[clusters[i]][0]);
      if instance.None? {
        return [], Other;
      }
      instances := instances + [instance.value];
    }
    forall c | c in igs ensures w.instance(igs[c][0]).Some? {
      var k :| 0 <= k < |clusters| && clusters[k] == c;
    }
    err := Nil;
  }

  /** getTargetTags: the first tag of each instance. */
  method GetTargetTags(instances: seq<Instance>) returns (tags: seq<string>, err: Err)
    ensures err == Nil <==> forall k :: 0 <= k < |instances| ==> instances[k].tags != []
    ensures err == Nil ==> |tags| == |instances| && forall k :: 0 <= k < |tags| ==> tags[k] == instances[k].tags[0]
  {
    tags := [];
    for i := 0 to |instances|
      invariant |tags| == i
      invariant forall k :: 0 <= k < i ==> instances[k].tags != [] && tags[k] == instances[k].tags[0]
    {
      if instances[i].tags == [] {
        return [], Other;
      }
      tags := tags + [instances[i].tags[0]];
    }
    err := Nil;
  }

  /** One instance of each cluster and its first tag, visiting the clusters in
      any order. An instance that cannot be fetched, or has no tag, is an error. */
  method GetTags(w: World, igs: map<string, Groups>)
    returns (tags: seq<string>, network: string, err: Err, ghost order: seq<string>)
    ensures Enumerates(order, igs.Keys)
    ensures err == Nil <==> TagsKnown(w, igs)
    ensures err == Nil ==> tags == Mapped(TagOf(w, igs), order)
    ensures err == Nil && igs != map[] ==>
              exists c :: c in igs && w.instance(igs[c][0]).Some? && network == NetworkOf(w.instance(igs[c][0]).value)
  {
    tags, network := [], "";
    var clusters := RangeOrder(igs.Keys);
    order := clusters;
    var instances, instancesErr := GetInstances(w, igs, clusters);
    if instancesErr != Nil {
      return [], "", Other, order;
    }
    tags, err := GetTargetTags(instances);
    forall k | 0 <= k < |clusters| ensures FirstTag(w, igs[clusters[k]]).Some? <==> instances[k].tags != [] {
      assert clusters[k] in clusters;
    }
    assert err == Nil <==> TagsKnown(w, igs) by {
      if k :| 0 <= k < |clusters| && instances[k].tags == [] {
        assert clusters[k] in igs;
      } else {
        forall c | c in igs ensures FirstTag(w, igs[c]).Some? {
          var k :| 0 <= k < |clusters| && clusters[k] == c;
        }
      }
    }
    if |instances| > 0 {
      network := NetworkOf(instances[0]);
      assert clusters[0] in igs;
    }
  }

  function PortStrings(ports: seq<ServicePort>): (s: seq<string>)
    ensures |s| == |ports| && forall i :: 0 <= i < |s| ==> s[i] == Decimal(ports[i].nodePort)
  {
    if ports == [] then [] else PortStrings(ports[..|ports| - 1]) + [Decimal(ports[|ports| - 1].nodePort)]
  }

  /** desiredFirewallRule, given the tags and a network. */
  function Desired(lbName: string, ports: seq<ServicePort>, tags: seq<string>, network: string): C.Firewall {
    C.Firewall("Firewall rule for kubernetes multicluster loadbalancer " + lbName,
               L7_SRC_RANGES,
               [C.Allowed("tcp", Sort(PortStrings(ports)))],
               Sort(tags),
               "INGRESS",
               network,
               0)
  }

  /** The API fills in the default priority. */
  function Fill(fw: C.Firewall): C.Firewall {
    if fw.priority == 0 then fw.(priority := DEFAULT_PRIORITY) else fw
  }

  /** firewallRuleMatches, after the wanted rule took over the existing network:
      only the default priority is forgiven. */
  predicate Matches(want: C.Firewall, existing: C.Firewall) {
    var cleared := if existing.priority == DEFAULT_PRIORITY then existing.(priority := 0) else existing;
    want.(network := existing.network) == cleared
  }

  datatype Job = Job(namer: Namer, lbName: string, ports: seq<ServicePort>, igs: map<string, Groups>, w: World,
                     force: bool, reliable: bool)

  /** `want` is the firewall rule over the first tags of all clusters, on the
      network of one of them. */
  ghost predicate Wanted(job: Job, want: C.Firewall) {
    && TagsKnown(job.w, job.igs)
    && OnNetwork(job, want.network)
    && exists order :: Enumerates(order, job.igs.Keys) &&
         want == Desired(job.lbName, job.ports, Mapped(TagOf(job.w, job.igs), order), want.network)
  }

  /** The network of an instance of one of the clusters. */
  ghost predicate OnNetwork(job: Job, network: string) {
    exists c :: c in job.igs && job.w.instance(job.igs[c][0]).Some? &&
      network == NetworkOf(job.w.instance(job.igs[c][0]).value)
  }

  lemma WantedByEither(job: Job, job': Job, want: C.Firewall)
    requires Wanted(job, want) && job' == job.(force := job'.force, reliable := job'.reliable)
    ensures Wanted(job', want)
  {
    hide Desired, Mapped, TagOf, Enumerates, TagsKnown;
  }

  /** The wanted rule does not depend on the order, except for its network. */
  lemma WantedUnique(job: Job, a: C.Firewall, b: C.Firewall)
    requires Wanted(job, a) && Wanted(job, b)
    ensures a == b.(network := a.network)
  {
    var o :| Enumerates(o, job.igs.Keys) &&
        a == Desired(job.lbName, job.ports, Mapped(TagOf(job.w, job.igs), o), a.network);
    var o' :| Enumerates(o', job.igs.Keys) &&
        b == Desired(job.lbName, job.ports, Mapped(TagOf(job.w, job.igs), o'), b.network);
    EnumerationsPermute(o, o', job.igs.Keys);
    MappedPermute(TagOf(job.w, job.igs), o, o');
    SortForgetsOrder(Mapped(TagOf(job.w, job.igs), o), Mapped(TagOf(job.w, job.igs), o'));
  }

  ghost predicate Outcome(job: Job, t: C.Table<C.Firewall>, t': C.Table<C.Firewall>, err: Err,
                          want: Option<C.Firewall>) {
    var name := job.namer.Name(Firewall);
    && (want.Some? <==> TagsKnown(job.w, job.igs))
    && (want.None? ==> err != Nil && t' == t)
    && (want.Some? ==>
          && Wanted(job, want.value)
          && (t' == t ||
              C.Wrote(t, t', name, Fill(if name in t then want.value.(network := t[name].spec.network)
                                        else want.value)))
          && (name in t && (!job.force || Matches(want.value, t[name].spec)) ==> t' == t)
          && (err == Nil ==> name in t' && Matches(want.value, t'[name].spec))
          && (job.reliable ==> (err == Nil <==> job.force || name !in t || Matches(want.value, t[name].spec))))
  }

  /** The rule without the given tags. */
  function WithoutTags(fw: C.Firewall, drop: set<string>): C.Firewall {
    Fill(fw.(targetTags := Sort(Without(fw.targetTags, Self, drop))))
  }

  lemma WithoutTagsTwice(fw: C.Firewall, a: set<string>, b: set<string>)
    ensures WithoutTags(WithoutTags(fw, a), b) == WithoutTags(fw, a + b)
  {
    var once := Without(fw.targetTags, Self, a);
    SortWithout(once, b);
    SortSorts(Without(once, Self, b));
    SortSorts(Sort(Without(once, Self, b)));
    SortedUnique(Sort(Sort(Without(once, Self, b))), Sort(Without(once, Self, b)));
    WithoutTwice(fw.targetTags, Self, a, b);
  }

  ghost function TagSet(w: World, igs: map<string, Groups>): set<string> {
    set c | c in igs && FirstTag(w, igs[c]).Some? :: FirstTag(w, igs[c]).value
  }

  ghost predicate RemovedFrom(namer: Namer, w: World, igs: map<string, Groups>, t: C.Table<C.Firewall>,
                              t': C.Table<C.Firewall>,
                              err: Err, reliable: bool) {
    var name := namer.Name(Firewall);
    && (t' == t || (name in t && TagsKnown(w, igs) && C.Wrote(t, t', name, WithoutTags(t[name].spec, TagSet(w, igs)))))
    && (err == Nil ==>
          name in t && TagsKnown(w, igs) && C.Wrote(t, t', name, WithoutTags(t[name].spec, TagSet(w, igs))))
    && (reliable && name in t && TagsKnown(w, igs) ==> err == Nil)
  }

  /** desiredFirewallRuleWithoutClusters, given the tags to be removed. */
  method WithoutClusters(fw: C.Firewall, removeTags: seq<string>) returns (r: C.Firewall)
    ensures Fill(r) == WithoutTags(fw, Elements(removeTags))
    ensures r == fw.(targetTags := r.targetTags)
    ensures r.targetTags == Sort(Without(fw.targetTags, Self, Elements(removeTags)))
  {
    var removeMap := Marked(removeTags);
    var newTags := Unmarked(fw.targetTags, Self, removeMap);
    r := fw.(targetTags := Sort(newTags));
  }

  class Syncer {
    const namer: Namer
    const cloud: C.Cloud

    constructor (namer: Namer, cloud: C.Cloud)
      ensures this.namer == namer && this.cloud == cloud
    {
      this.namer, this.cloud := namer, cloud;
    }

    /** desiredFirewallRule. */
    method DesiredFirewallRule(lbName: string, ports: seq<ServicePort>, igs: map<string, Groups>, w: World,
                               ghost job: Job)
      returns (desired: C.Firewall, err: Err)
      requires job == Job(namer, lbName, ports, igs, w, job.force, cloud.reliable) && igs != map[]
      ensures err == Nil <==> TagsKnown(w, igs)
      ensures err == Nil ==> Wanted(job, desired) && desired.priority == 0
    {
      hide Sort, PortStrings;
      var tags, network, tagsErr, order := GetTags(w, igs);
      if tagsErr != Nil {
        return Desired(lbName, ports, [], ""), Other;
      }
      desired := Desired(lbName, ports, tags, network);
      err := Nil;
    }

    /** EnsureFirewallRule. */
    method EnsureFirewallRule(lbName: string, ports: seq<ServicePort>, igs: map<string, Groups>, w: World, force: bool)
      returns (err: Err, ghost want: Option<C.Firewall>)
      requires igs != map[]
      modifies cloud`firewalls
      ensures Outcome(Job(namer, lbName, ports, igs, w, force, cloud.reliable), old(cloud.firewalls), cloud.firewalls,
                      err, want)
    {
      hide Wanted;
      ghost var job := Job(namer, lbName, ports, igs, w, force, cloud.reliable);
      want := None;
      var desired, desiredErr := DesiredFirewallRule(lbName, ports, igs, w, job);
      if desiredErr != Nil {
        return Other, None;
      }
      want := Some(desired);
      var name := namer.Name(Firewall);
      var existing, getErr := C.Fetch(cloud.firewalls, name, cloud.reliable);
      if getErr == Nil {
        desired := desired.(network := existing.value.spec.network);
        if Matches(desired, existing.value.spec) {
          return Nil, want;
        }
        if !force {
          return Other, want;
        }
        cloud.firewalls, err := C.Replace(cloud.firewalls, name, Fill(desired), None, cloud.reliable);
        return;
      }
      cloud.firewalls, err := C.Insert(cloud.firewalls, name, Fill(desired), cloud.reliable);
    }

    /** RemoveFromClusters: drops the first tags of the given clusters. */
    method RemoveFromClusters(igs: map<string, Groups>, w: World) returns (err: Err)
      modifies cloud`firewalls
      ensures RemovedFrom(namer, w, igs, old(cloud.firewalls), cloud.firewalls, err, cloud.reliable)
    {
      var name := namer.Name(Firewall);
      var existing, getErr := C.Fetch(cloud.firewalls, name, cloud.reliable);
      if getErr != Nil {
        return Other;
      }
      var tags, network, tagsErr, order := GetTags(w, igs);
      if tagsErr != Nil {
        return Other;
      }
      TagElements(w, igs, order);
      var desired := WithoutClusters(existing.value.spec, tags);
      cloud.firewalls, err := C.Replace(cloud.firewalls, name, Fill(desired), None, cloud.reliable);
    }

    method DeleteFirewallRules() returns (err: Err)
      modifies cloud`firewalls
      ensures C.Purged(old(cloud.firewalls), cloud.firewalls, namer.Name(Firewall), false, err, cloud.reliable)
    {
      cloud.firewalls, err := C.Remove(cloud.firewalls, namer.Name(Firewall), false, cloud.reliable);
      if err == NotFound {
        err := Nil;
      }
    }
  }

  lemma TagElements(w: World, igs: map<string, Groups>, order: seq<string>)
    requires Enumerates(order, igs.Keys) && TagsKnown(w, igs)
    ensures Elements(Mapped(TagOf(w, igs), order)) == TagSet(w, igs)
  {
    var tags := Mapped(TagOf(w, igs), order);
    forall x | x in tags ensures x in TagSet(w, igs) {
      var i :| 0 <= i < |tags| && tags[i] == x;
      assert order[i] in igs.Keys;
    }
    forall x | x in TagSet(w, igs) ensures x in tags {
      var c :| c in igs && FirstTag(w, igs[c]) == Some(x);
      var i :| 0 <= i < |order| && order[i] == c;
      assert tags[i] == x;
    }
  }
}
