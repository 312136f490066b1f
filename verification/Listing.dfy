/** Listing all load balancers: statuses from URL maps and from the forwarding
    rules of older load balancers, merged. */
module Listing {
  import opened Prelude
  import opened Names
  import opened Ingress
  import opened Status
  import opened LoadBalancer
  import opened Histories
  import De = DeleteRuns
  import Tr = Translation
  import C = Cloud
  import U = UrlMaps
  import T = TargetProxies
  import R = ForwardingRules

  type Source = string -> Option<LoadBalancerStatus>

  /** The status on a URL map with the prefix of this tool. */
  function UrlMapSource(codec: Codec, t: C.Table<C.UrlMap>): Source {
    k => if k in t && MCI_PREFIX <= k then codec.fromStr(t[k].spec.description) else None
  }

  function RuleSource(codec: Codec, t: C.Table<C.ForwardingRule>): Source {
    k => if k in t && MCI_PREFIX <= k then codec.fromStr(t[k].spec.description) else None
  }

  /** The names in `order` under which there is a status. */
  function Homes(order: seq<string>, f: Source): (keys: seq<string>)
    ensures forall k :: k in keys <==> k in order && f(k).Some?
    ensures NoDuplicates(order) ==> NoDuplicates(keys)
  {
    if order == [] then []
    else
      var last := order[|order| - 1];
      Homes(order[..|order| - 1], f) + (if f(last).Some? then [last] else [])
  }

  function Statuses(order: seq<string>, f: Source): seq<LoadBalancerStatus> {
    if order == [] then []
    else
      var last := f(order[|order| - 1]);
      Statuses(order[..|order| - 1], f) + (if last.Some? then [last.value] else [])
  }

  lemma StatusesStep(order: seq<string>, i: nat, f: Source)
    requires i < |order|
    ensures Statuses(order[..i + 1], f) ==
            if f(order[i]).Some? then Statuses(order[..i], f) + [f(order[i]).value] else Statuses(order[..i], f)
  {
    assert order[..i + 1][..i] == order[..i];
  }

  lemma {:induction false} StatusesOfHomes(order: seq<string>, f: Source)
    ensures |Statuses(order, f)| == |Homes(order, f)|
    ensures forall i :: 0 <= i < |Homes(order, f)| ==> f(Homes(order, f)[i]) == Some(Statuses(order, f)[i])
  {
    if order != [] {
      StatusesOfHomes(order[..|order| - 1], f);
    }
  }

  /** Some status in the list is of load balancer `l`. */
  ghost predicate Named(list: seq<LoadBalancerStatus>, l: string) {
    exists i :: 0 <= i < |list| && list[i].lbName == l
  }

  /** No load balancer is in the list twice. */
  ghost predicate NamesOnce(list: seq<LoadBalancerStatus>) {
    forall i, j :: 0 <= i < j < |list| ==> list[i].lbName != list[j].lbName
  }

  /** The first status of each load balancer. */
  ghost function Firsts(list: seq<LoadBalancerStatus>): (r: seq<LoadBalancerStatus>)
    ensures NamesOnce(r)
  {
    if list == [] then []
    else
      var r, last := Firsts(list[..|list| - 1]), list[|list| - 1];
      if Named(r, last.lbName) then r else r + [last]
  }

  lemma {:induction false} FirstsMembers(list: seq<LoadBalancerStatus>)
    ensures forall st :: st in Firsts(list) ==> st in list
    ensures forall l :: Named(Firsts(list), l) <==> Named(list, l)
  {
    if list != [] {
      var front, last := list[..|list| - 1], list[|list| - 1];
      FirstsMembers(front);
      forall l ensures Named(Firsts(list), l) <==> Named(list, l) {
        NamedStep(front, last, l);
        NamedStep(Firsts(front), last, l);
        assert list == front + [last];
      }
    }
  }

  lemma NamedStep(list: seq<LoadBalancerStatus>, st: LoadBalancerStatus, l: string)
    ensures Named(list + [st], l) <==> Named(list, l) || st.lbName == l
  {
    assert (list + [st])[|list|] == st;
    if Named(list, l) {
      var i :| 0 <= i < |list| && list[i].lbName == l;
      assert (list + [st])[i].lbName == l;
    }
  }

  lemma FirstsNone()
    ensures Firsts([]) == [] && (forall l :: !Named([], l)) && forall f :: Statuses([], f) == []
  {
  }

  lemma FirstsStep(list: seq<LoadBalancerStatus>, st: LoadBalancerStatus)
    ensures Firsts(list + [st]) == if Named(Firsts(list), st.lbName) then Firsts(list) else Firsts(list) + [st]
  {
    assert (list + [st])[..|list|] == list;
  }

  // ---------- The loops ----------

  /** urlmap ListLoadBalancerStatuses; the call returns the maps in any order. */
  method ListUrlMapStatuses(cloud: C.Cloud, codec: Codec) returns (result: seq<LoadBalancerStatus>, err: Err,
                                                                   ghost order: seq<string>)
    ensures Enumerates(order, cloud.urlMaps.Keys)
    ensures err == Nil ==> result == Statuses(order, UrlMapSource(codec, cloud.urlMaps))
    ensures cloud.reliable ==> err == Nil
  {
    var names := RangeOrder(cloud.urlMaps.Keys);
    order, result := names, [];
    var fault: C.Fault := *;
    if fault != C.Works && !cloud.reliable {
      return result, Other, order;
    }
    for i := 0 to |names|
      invariant result == Statuses(names[..i], UrlMapSource(codec, cloud.urlMaps))
    {
      assert names[i] in names;
      assert names[..i + 1][..i] == names[..i];
      var item := cloud.urlMaps[names[i]];
      if MCI_PREFIX <= names[i] {
        var status := codec.fromStr(item.spec.description);
        if status.None? {
          continue;
        }
        result := result + [status.value];
      }
    }
    assert names[..|names|] == names;
    err := Nil;
  }

  /** ListGlobalForwardingRules, in any order. The provider appends page after
      page to a nil slice, so the result is nil, here None, if there is no rule. */
  method ListGlobalForwardingRules(cloud: C.Cloud) returns (rules: Option<seq<string>>, err: Err)
    ensures err == Nil && rules.Some? ==> Enumerates(rules.value, cloud.forwardingRules.Keys)
    ensures err == Nil ==> (rules.None? <==> cloud.forwardingRules == map[])
    ensures cloud.reliable ==> err == Nil
  {
    var fault: C.Fault := *;
    if fault != C.Works && !cloud.reliable {
      return None, Other;
    }
    if cloud.forwardingRules == map[] {
      return None, Nil;
    }
    var names := RangeOrder(cloud.forwardingRules.Keys);
    return Some(names), Nil;
  }

  /** forwardingrule ListLoadBalancerStatuses, with the map of those seen. A nil
      slice is an error, and so it fails exactly if there is no rule at all. */
  method ListRuleStatuses(cloud: C.Cloud, codec: Codec) returns (result: seq<LoadBalancerStatus>, err: Err,
                                                                 ghost order: seq<string>)
    ensures err == Nil ==> Enumerates(order, cloud.forwardingRules.Keys)
    ensures err == Nil ==> result == Firsts(Statuses(order, RuleSource(codec, cloud.forwardingRules)))
    ensures err == Nil ==> cloud.forwardingRules != map[]
    ensures cloud.reliable ==> (err == Nil <==> cloud.forwardingRules != map[])
  {
    order, result := [], [];
    var rules, listErr := ListGlobalForwardingRules(cloud);
    if listErr != Nil || rules.None? {
      return result, Other, order;
    }
    var names := rules.value;
    order := names;
    hide Firsts, Named, NamesOnce, Statuses;
    FirstsNone();
    ghost var f := RuleSource(codec, cloud.forwardingRules);
    var lbsSeen: map<string, bool> := map[];
    for i := 0 to |names|
      invariant result == Firsts(Statuses(names[..i], f))
      invariant forall l :: l in lbsSeen <==> Named(result, l)
    {
      assert names[i] in names;
      ghost var before := Statuses(names[..i], f);
      StatusesStep(names, i, f);
      var item := cloud.forwardingRules[names[i]];
      if MCI_PREFIX <= names[i] {
        var status := codec.fromStr(item.spec.description);
        if status.None? {
          continue;
        }
        FirstsStep(before, status.value);
        if status.value.lbName in lbsSeen {
          continue;
        }
        forall l ensures Named(result + [status.value], l) <==> Named(result, l) || status.value.lbName == l {
          NamedStep(result, status.value, l);
        }
        lbsSeen := lbsSeen[status.value.lbName := true];
        result := result + [status.value];
      }
    }
    assert names[..|names|] == names;
    err := Nil;
  }

  ghost function Merged(codec: Codec, s: C.Store, maps: seq<string>, rules: seq<string>): seq<LoadBalancerStatus> {
    Statuses(maps, UrlMapSource(codec, s.urlMaps)) + Firsts(Statuses(rules, RuleSource(codec, s.forwardingRules)))
  }

  /** ListLoadBalancers, up to the layout of the printed table. */
  method ListLoadBalancers(cloud: C.Cloud, codec: Codec) returns (list: seq<LoadBalancerStatus>, err: Err)
    ensures err == Nil ==>
              exists maps, rules :: Enumerates(maps, cloud.urlMaps.Keys) &&
                  Enumerates(rules, cloud.forwardingRules.Keys) &&
                             list == Merged(codec, cloud.Snapshot(), maps, rules)
    ensures cloud.reliable ==> (err == Nil <==> cloud.forwardingRules != map[])
    ensures err == Nil ==> forall l :: Named(list, l) <==> HasStatus(codec, cloud.Snapshot(), l)
    ensures err == Nil ==> (NamesOnce(list) <==> OneHome(codec, cloud.Snapshot()))
  {
    hide Enumerates, Statuses, Firsts, NamesOnce, OneHome, HasStatus, Named;
    var umBalancers, umErr, maps := ListUrlMapStatuses(cloud, codec);
    var frBalancers, frErr, rules := ListRuleStatuses(cloud, codec);
    if umErr != Nil || frErr != Nil {
      return [], Other;
    }
    list, err := umBalancers + frBalancers, Nil;
    ListingIsExact(codec, cloud.Snapshot(), maps, rules);
  }

  /** An empty project is not listed as empty: the command fails. */
  method EmptyProjectCannotBeListed(codec: Codec) returns (err: Err)
    ensures err != Nil
  {
    var cloud := new C.Cloud(true, true, C.Store(map[], map[], map[], map[], map[], map[], map[], map[]));
    var list;
    list, err := ListLoadBalancers(cloud, codec);
  }

  // ---------- What the list holds ----------

  /** Some resource of this tool carries a status of load balancer `l`. */
  ghost predicate HasStatus(codec: Codec, s: C.Store, l: string) {
    || (exists k :: k in s.urlMaps && "mci1" <= k && DecodesTo(codec, s.urlMaps[k].spec.description, l))
    || (exists k :: k in s.forwardingRules && "mci1" <= k && DecodesTo(codec, s.forwardingRules[k].spec.description, l))
  }

  predicate DecodesTo(codec: Codec, description: string, l: string) {
    codec.fromStr(description).Some? && codec.fromStr(description).value.lbName == l
  }

  /** The two sources are what the list is made from. */
  lemma HasStatusExactly(codec: Codec, s: C.Store, l: string)
    ensures HasStatus(codec, s, l) <==>
            || (exists k :: SaysName(UrlMapSource(codec, s.urlMaps), k, l))
            || (exists k :: SaysName(RuleSource(codec, s.forwardingRules), k, l))
  {
    forall k ensures SaysName(UrlMapSource(codec, s.urlMaps), k, l) <==>
                     k in s.urlMaps && "mci1" <= k && DecodesTo(codec, s.urlMaps[k].spec.description, l)
    {
    }
    forall k ensures SaysName(RuleSource(codec, s.forwardingRules), k, l) <==>
                     k in s.forwardingRules && "mci1" <= k && DecodesTo(codec, s.forwardingRules[k].spec.description, l)
    {
    }
  }

  predicate SaysName(f: Source, k: string, l: string) {
    f(k).Some? && f(k).value.lbName == l
  }

  /** Each load balancer has its status on one URL map, or on its forwarding
      rules, but not on both. */
  ghost predicate OneHome(codec: Codec, s: C.Store) {
    && (forall k, k',
        l :: SaysName(UrlMapSource(codec, s.urlMaps), k, l) && SaysName(UrlMapSource(codec, s.urlMaps), k', l) ==>
              k == k')
    && (forall k, k', l :: SaysName(UrlMapSource(codec, s.urlMaps), k, l) ==>
          !SaysName(RuleSource(codec, s.forwardingRules), k', l))
  }

  lemma NamedStatuses(order: seq<string>, domain: set<string>, f: Source, l: string)
    requires Enumerates(order, domain) && forall k :: f(k).Some? ==> k in domain
    ensures Named(Statuses(order, f), l) <==> exists k :: SaysName(f, k, l)
  {
    StatusesOfHomes(order, f);
    var keys, list := Homes(order, f), Statuses(order, f);
    if Named(list, l) {
      var i :| 0 <= i < |list| && list[i].lbName == l;
      assert SaysName(f, keys[i], l);
    }
    if k :| SaysName(f, k, l) {
      assert k in keys;
      var i :| 0 <= i < |keys| && keys[i] == k;
      assert list[i].lbName == l;
    }
  }

  lemma NamedConcat(x: seq<LoadBalancerStatus>, y: seq<LoadBalancerStatus>, l: string)
    ensures Named(x + y, l) <==> Named(x, l) || Named(y, l)
  {
    if Named(x, l) {
      var i :| 0 <= i < |x| && x[i].lbName == l;
      assert (x + y)[i].lbName == l;
    }
    if Named(y, l) {
      var i :| 0 <= i < |y| && y[i].lbName == l;
      assert (x + y)[|x| + i].lbName == l;
    }
  }

  lemma OnceConcat(x: seq<LoadBalancerStatus>, y: seq<LoadBalancerStatus>)
    ensures NamesOnce(x + y) <==> NamesOnce(x) && NamesOnce(y) && forall l :: Named(x, l) ==> !Named(y, l)
  {
    var z := x + y;
    if NamesOnce(z) {
      forall l | Named(x, l) ensures !Named(y, l) {
        var i :| 0 <= i < |x| && x[i].lbName == l;
        assert z[i].lbName == l;
        forall j | 0 <= j < |y| ensures y[j].lbName != l {
          assert z[|x| + j] == y[j];
        }
      }
      forall i, j | 0 <= i < j < |y| ensures y[i].lbName != y[j].lbName {
        assert z[|x| + i] == y[i] && z[|x| + j] == y[j];
      }
      forall i, j | 0 <= i < j < |x| ensures x[i].lbName != x[j].lbName {
        assert z[i] == x[i] && z[j] == x[j];
      }
    }
    if NamesOnce(x) && NamesOnce(y) && forall l :: Named(x, l) ==> !Named(y, l) {
      forall i, j | 0 <= i < j < |z| ensures z[i].lbName != z[j].lbName {
        if i < |x| <= j {
          assert Named(x, x[i].lbName) && !Named(y, x[i].lbName);
          assert y[j - |x|] == z[j];
        }
      }
    }
  }

  lemma OnceStatuses(order: seq<string>, domain: set<string>, f: Source)
    requires Enumerates(order, domain) && forall k :: f(k).Some? ==> k in domain
    ensures NamesOnce(Statuses(order, f)) <==> forall k, k', l :: SaysName(f, k, l) && SaysName(f, k', l) ==> k == k'
  {
    StatusesOfHomes(order, f);
    var keys, list := Homes(order, f), Statuses(order, f);
    if NamesOnce(list) {
      forall k, k', l | SaysName(f, k, l) && SaysName(f, k', l) ensures k == k' {
        assert k in keys && k' in keys;
        var i, j :| 0 <= i < |keys| && 0 <= j < |keys| && keys[i] == k && keys[j] == k';
        assert list[i].lbName == list[j].lbName;
      }
    }
    if forall k, k', l :: SaysName(f, k, l) && SaysName(f, k', l) ==> k == k' {
      forall i, j | 0 <= i < j < |list| ensures list[i].lbName != list[j].lbName {
        assert SaysName(f, keys[i], list[i].lbName) && SaysName(f, keys[j], list[j].lbName);
        assert keys[i] != keys[j];
      }
    }
  }

  /** Whatever the order of the two calls' results: the merged list names
      exactly the load balancers with a status, and each just once exactly if
      each has one home. */
  lemma ListingIsExact(codec: Codec, s: C.Store, maps: seq<string>, rules: seq<string>)
    requires Enumerates(maps, s.urlMaps.Keys) && Enumerates(rules, s.forwardingRules.Keys)
    ensures forall l :: Named(Merged(codec, s, maps, rules), l) <==> HasStatus(codec, s, l)
    ensures NamesOnce(Merged(codec, s, maps, rules)) <==> OneHome(codec, s)
  {
    var f, g := UrlMapSource(codec, s.urlMaps), RuleSource(codec, s.forwardingRules);
    var x, y := Statuses(maps, f), Statuses(rules, g);
    FirstsMembers(y);
    forall l ensures Named(x + Firsts(y), l) <==> HasStatus(codec, s, l)
      ensures Named(x, l) <==> exists k :: SaysName(f, k, l)
      ensures Named(Firsts(y), l) <==> exists k :: SaysName(g, k, l)
    {
      HasStatusExactly(codec, s, l);
      NamedStatuses(maps, s.urlMaps.Keys, f, l);
      NamedStatuses(rules, s.forwardingRules.Keys, g, l);
      NamedConcat(x, Firsts(y), l);
    }
    OnceConcat(x, Firsts(y));
    OnceStatuses(maps, s.urlMaps.Keys, f);
    hide Statuses, Firsts, Named, SaysName, Enumerates;
    assert (forall l :: Named(x, l) ==> !Named(Firsts(y), l)) <==>
          forall k, k', l :: SaysName(f, k, l) ==> !SaysName(g, k', l) by {
      if k, k', l :| SaysName(f, k, l) && SaysName(g, k', l) {
        assert Named(x, l) && Named(Firsts(y), l);
      }
    }
  }

  // ---------- Every command keeps one home per load balancer ----------

  /** A status on a URL map is the one of the load balancer the map is named
      for, and a load balancer with a status there has none on a rule. */
  ghost predicate WellHomed(codec: Codec, s: C.Store) {
    && (forall k, l :: SaysName(UrlMapSource(codec, s.urlMaps), k, l) ==> k == MciNamer(l).Name(UrlMap))
    && (forall k, k', l :: SaysName(UrlMapSource(codec, s.urlMaps), k, l) ==>
          !SaysName(RuleSource(codec, s.forwardingRules), k', l))
  }

  lemma WellHomedMeansOneHome(codec: Codec, s: C.Store)
    requires WellHomed(codec, s)
    ensures OneHome(codec, s)
  {
    hide Namer.Name, SaysName;
  }

  /** No forwarding rule carries a status of this load balancer, as is the case
      unless it was created when statuses were still kept there. */
  ghost predicate NotOnRules(codec: Codec, s: C.Store, l: string) {
    forall k :: !SaysName(RuleSource(codec, s.forwardingRules), k, l)
  }

  /** Every status that is on a URL map or rule afterwards was there before, or
      it is on the URL map of load balancer `l` and says so. */
  ghost predicate AddsOnlyOwn(codec: Codec, s: C.Store, s': C.Store, l: string) {
    && (forall k, m :: SaysName(UrlMapSource(codec, s'.urlMaps), k, m) ==>
          SaysName(UrlMapSource(codec, s.urlMaps), k, m) || (k == MciNamer(l).Name(UrlMap) && m == l))
    && (forall k, m :: SaysName(RuleSource(codec, s'.forwardingRules), k, m) ==>
          SaysName(RuleSource(codec, s.forwardingRules), k, m))
  }

  lemma OwnStatusKeepsHomes(codec: Codec, s: C.Store, s': C.Store, l: string)
    requires WellHomed(codec, s) && AddsOnlyOwn(codec, s, s', l) && NotOnRules(codec, s, l)
    ensures WellHomed(codec, s') && forall m :: NotOnRules(codec, s, m) ==> NotOnRules(codec, s', m)
  {
    hide Namer.Name, SaysName;
  }

  lemma UrlMapStatusWritten(a: Args, t: C.Table<C.UrlMap>, t': C.Table<C.UrlMap>, inp: Inputs, be: BackendPart,
                            um: UrlMapPart)
    requires UrlMapStage(a, t, t', inp, be, um) && Lawful(a.codec)
    ensures forall k, m :: SaysName(UrlMapSource(a.codec, t'), k, m) ==>
              SaysName(UrlMapSource(a.codec, t), k, m) || (k == MciNamer(a.lbName).Name(UrlMap) && m == a.lbName)
  {
    hide Namer.Name, U.Translatable, Tr.Translates;
    if um.want.Some? && t' != t {
      var name := a.Namer().Name(UrlMap);
      assert a.codec.fromStr(t'[name].spec.description) == Some(U.DesiredStatus(a.lbName, inp.ip, a.clusters));
    }
  }

  lemma RuleStatusWritten(codec: Codec, t: C.Table<C.ForwardingRule>, t': C.Table<C.ForwardingRule>, name: string,
                          want: C.ForwardingRule,
                          force: bool, err: Err, reliable: bool)
    requires R.Outcome(t, t', name, want, force, err, reliable) && codec.fromStr(want.description).None?
    ensures forall k, m :: SaysName(RuleSource(codec, t'), k, m) ==> SaysName(RuleSource(codec, t), k, m)
  {
  }

  /** What ensureForwardingRule writes is not a status. */
  lemma RulesAreNotStatuses(codec: Codec, lbName: string, ip: string, target: C.Link)
    requires Lawful(codec)
    ensures codec.fromStr(R.DesiredHttp(lbName, ip, target).description).None?
    ensures codec.fromStr(R.DesiredHttps(lbName, ip, target).description).None?
  {
    assert R.DesiredHttp(lbName, ip, target).description[0] == 'h' &&
           R.DesiredHttps(lbName, ip, target).description[0] == 'h';
  }

  lemma FullCreateAddsOnlyOwn(a: Args, s: C.Store, s': C.Store, err: Err, r: Run)
    requires FullRun(a, s, s', err, r) && Lawful(a.codec)
    ensures AddsOnlyOwn(a.codec, s, s', a.lbName)
  {
    hide HealthStage, GroupStage, BackendStage, UrlMapStage, FirewallStage, InputStage, T.Outcome, R.Outcome, CertStage,
         Namer.Name, SaysName,
         R.DesiredHttp, R.DesiredHttps, T.DesiredHttp, T.DesiredHttps, T.PatchedHttp, T.PatchedHttps, Lawful;
    UrlMapStatusWritten(a, s.urlMaps, s'.urlMaps, r.inp, r.be, r.um);
    RulesAreNotStatuses(a.codec, a.lbName, r.inp.ip, HttpTarget(a, r.http));
    RulesAreNotStatuses(a.codec, a.lbName, r.inp.ip, HttpsTarget(a, r.https));
    if a.ing.allowHttp {
      RuleStatusWritten(a.codec, s.forwardingRules, r.http.rules, a.Namer().Name(HttpRule),
                        R.DesiredHttp(a.lbName, r.inp.ip, HttpTarget(a, r.http)), a.force, r.http.ruleErr, a.reliable);
    }
    if a.WantsHttps() {
      RuleStatusWritten(a.codec, r.http.rules, s'.forwardingRules, a.Namer().Name(HttpsRule),
                        R.DesiredHttps(a.lbName, r.inp.ip,
                                       HttpsTarget(a, r.https)), a.force, r.https.ruleErr, a.reliable);
    }
  }

  lemma CreateAddsOnlyOwn(a: Args, s: C.Store, s': C.Store, err: Err, r: Run)
    requires CreateRun(a, s, s', err, r) && Lawful(a.codec)
    ensures AddsOnlyOwn(a.codec, s, s', a.lbName)
  {
    hide FullRun, Lawful, InputStage, HealthStage, GroupStage;
    if FullRun(a, s, s', err, r) {
      FullCreateAddsOnlyOwn(a, s, s', err, r);
    }
  }

  lemma RemovalKeepsNames(codec: Codec, name: string, drop: set<string>, t: C.Table<C.UrlMap>, t': C.Table<C.UrlMap>,
                          err: Err, reliable: bool)
    requires U.StatusRemoved(codec, name, drop, t, t', err, reliable) && Lawful(codec)
    ensures forall k, m :: SaysName(UrlMapSource(codec, t'), k, m) ==> SaysName(UrlMapSource(codec, t), k, m)
  {
  }

  lemma RemoveKeepsHomes(a: Args, remove: set<string>, s: C.Store, s': C.Store, err: Err, r: Removal)
    requires RemoveRun(a, remove, s, s', err, r) && Lawful(a.codec) && WellHomed(a.codec, s)
    ensures WellHomed(a.codec, s') && forall m :: NotOnRules(a.codec, s, m) ==> NotOnRules(a.codec, s', m)
  {
    hide NodePorts, Namer.Name, GroupsKnown, GroupsRemoved, RemoveStops, StatusFound, SaysName, U.StatusRemoved, Lawful;
    if s' != s {
      RemovalKeepsNames(a.codec, a.Namer().Name(UrlMap), remove, s.urlMaps, s'.urlMaps, r.umErr, a.reliable);
    }
  }

  lemma DeleteKeepsHomes(codec: Codec, a: Args, s: C.Store, s': C.Store, err: Err, ports: seq<ServicePort>,
                         e: DeleteErrs)
    requires DeleteRun(a, s, s', err, ports, e) && WellHomed(codec, s)
    ensures WellHomed(codec, s') && forall m :: NotOnRules(codec, s, m) ==> NotOnRules(codec, s', m)
  {
    hide DeleteRun, Namer.Name, SaysName;
    DeleteShrinks(a, s, s', err, ports, e);
    ShrinkingKeepsNames(codec, s, s');
  }

  lemma ShrinkingKeepsNames(codec: Codec, s: C.Store, s': C.Store)
    requires Extends(s'.urlMaps, s.urlMaps) && Extends(s'.forwardingRules, s.forwardingRules)
    ensures forall k, m :: SaysName(UrlMapSource(codec, s'.urlMaps), k, m) ==>
              SaysName(UrlMapSource(codec, s.urlMaps), k, m)
    ensures forall k, m :: SaysName(RuleSource(codec, s'.forwardingRules), k, m) ==>
              SaysName(RuleSource(codec, s.forwardingRules), k, m)
  {
  }

  lemma DeleteShrinks(a: Args, s: C.Store, s': C.Store, err: Err, ports: seq<ServicePort>, e: DeleteErrs)
    requires DeleteRun(a, s, s', err, ports, e)
    ensures Extends(s'.urlMaps, s.urlMaps) && Extends(s'.forwardingRules, s.forwardingRules)
  {
    hide FrontDeleted, BackDeleted, NodePorts;
    if FrontDeleted(a, s, s', e) {
      De.FrontShrinks(a, s, s', e);
    }
  }

  lemma StepKeepsHomes(e: Event, codec: Codec, s: C.Store, s': C.Store)
    requires Happens(e, s, s') && e.a.codec == codec && Lawful(codec) && WellHomed(codec, s)
    requires NotOnRules(codec, s, e.a.lbName)
    ensures WellHomed(codec, s') && forall m :: NotOnRules(codec, s, m) ==> NotOnRules(codec, s', m)
  {
    hide CreateRun, RemoveRun, DeleteRun, WellHomed, NotOnRules, Lawful, AddsOnlyOwn;
    match e {
      case Created(a, err, run) =>
        CreateAddsOnlyOwn(a, s, s', err, run);
        OwnStatusKeepsHomes(codec, s, s', a.lbName);
      case ClustersRemoved(a, remove, err, removal) =>
        RemoveKeepsHomes(a, remove, s, s', err, removal);
      case Deleted(a, err, ports, errs) =>
        DeleteKeepsHomes(codec, a, s, s', err, ports, errs);
    }
  }

  /** After any history of commands, complete or failed at any point, on load
      balancers with no status on a rule to begin with, the merged list names each
      load balancer that has a status exactly once. */
  lemma {:induction false} ListingAlwaysExact(events: seq<Event>, stores: seq<C.Store>, codec: Codec, i: nat,
                                              maps: seq<string>, rules: seq<string>)
    requires History(events, stores) && Lawful(codec) && WellHomed(codec, stores[0]) && i < |stores|
    requires forall k :: 0 <= k < |events| ==>
               events[k].a.codec == codec && NotOnRules(codec, stores[0], events[k].a.lbName)
    requires Enumerates(maps, stores[i].urlMaps.Keys) && Enumerates(rules, stores[i].forwardingRules.Keys)
    ensures NamesOnce(Merged(codec, stores[i], maps, rules))
    ensures forall l :: Named(Merged(codec, stores[i], maps, rules), l) <==> HasStatus(codec, stores[i], l)
  {
    hide Happens, WellHomed, NotOnRules, Lawful, NamesOnce, Named, HasStatus, Merged, OneHome;
    HomesAlways(events, stores, codec, i);
    WellHomedMeansOneHome(codec, stores[i]);
    ListingIsExact(codec, stores[i], maps, rules);
  }

  lemma {:induction false} HomesAlways(events: seq<Event>, stores: seq<C.Store>, codec: Codec, i: nat)
    requires History(events, stores) && Lawful(codec) && WellHomed(codec, stores[0]) && i < |stores|
    requires forall k :: 0 <= k < |events| ==>
               events[k].a.codec == codec && NotOnRules(codec, stores[0], events[k].a.lbName)
    ensures WellHomed(codec, stores[i]) && forall m :: NotOnRules(codec, stores[0], m) ==>
              NotOnRules(codec, stores[i], m)
  {
    hide Happens, WellHomed, NotOnRules, Lawful;
    if i > 0 {
      HomesAlways(events, stores, codec, i - 1);
      assert Happens(events[i - 1], stores[i - 1], stores[i]);
      StepKeepsHomes(events[i - 1], codec, stores[i - 1], stores[i]);
    }
  }
}
