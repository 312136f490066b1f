/** Global forwarding rules, the entry points of a load balancer. */
module ForwardingRules {
  import opened Prelude
  import opened Names
  import opened Status
  import C = Cloud

  const HTTP_DEFAULT_PORT_RANGE := "80-80"
  const HTTPS_DEFAULT_PORT_RANGE := "443-443"

  /** desiredForwardingRule. */
  function Desired(lbName: string, ip: string, target: C.Link, portRange: string, protocol: string): C.ForwardingRule {
    C.ForwardingRule(protocol + " forwarding rule for kubernetes multicluster loadbalancer " + lbName,
                     ip, target, portRange, "TCP", "EXTERNAL")
  }

  function DesiredHttp(lbName: string, ip: string, target: C.Link): C.ForwardingRule {
    Desired(lbName, ip, target, HTTP_DEFAULT_PORT_RANGE, "http")
  }

  function DesiredHttps(lbName: string, ip: string, target: C.Link): C.ForwardingRule {
    Desired(lbName, ip, target, HTTPS_DEFAULT_PORT_RANGE, "https")
  }

  /** The rules agree on everything that updateForwardingRule compares. */
  predicate SameButProxy(a: C.ForwardingRule, b: C.ForwardingRule) {
    && a.ipAddress == b.ipAddress && a.portRange == b.portRange
    && a.ipProtocol == b.ipProtocol && a.description == b.description
  }

  /** What a successful ensure leaves under the name. Where only the proxy has
      to change it is set in place, and the load balancing scheme stays. */
  function Ensured(t: C.Table<C.ForwardingRule>, name: string, want: C.ForwardingRule): C.ForwardingRule {
    if name in t && SameButProxy(t[name].spec, want) then t[name].spec.(target := want.target) else want
  }

  ghost predicate Outcome(t: C.Table<C.ForwardingRule>, t': C.Table<C.ForwardingRule>, name: string,
                          want: C.ForwardingRule,
                          force: bool, err: Err, reliable: bool) {
    && (t' == t || C.Wrote(t, t', name, Ensured(t, name, want)) || (name in t && t' == t - {name}))
    && (name in t && (!force || t[name].spec == want) ==> t' == t)
    && (err == Nil ==>
          name in t' && t'[name].spec == Ensured(t, name, want) && (force || name !in t || t[name].spec == want))
    && (reliable ==> (err == Nil <==> force || name !in t || t[name].spec == want))
  }

  /** A forced, successful ensure leaves exactly the wanted rule, except that a
      rule differing in nothing updateForwardingRule compares keeps its scheme. */
  lemma Converges(t: C.Table<C.ForwardingRule>, t': C.Table<C.ForwardingRule>, name: string, want: C.ForwardingRule,
                  reliable: bool)
    requires Outcome(t, t', name, want, true, Nil, reliable)
    ensures name in t' && t'[name].spec.target == want.target && SameButProxy(t'[name].spec, want)
    ensures t'[name].spec == want <==>
            !(name in t && SameButProxy(t[name].spec, want) &&
                t[name].spec.loadBalancingScheme != want.loadBalancingScheme)
  {
  }

  /** What deleting both rules may do; nothing refers to a forwarding rule. */
  ghost predicate RulesPurged(namer: Namer, t: C.Table<C.ForwardingRule>, t': C.Table<C.ForwardingRule>, err: Err,
                              reliable: bool) {
    var own := {namer.Name(HttpRule), namer.Name(HttpsRule)};
    && Extends(t', t)
    && SameOutside(t, t', own)
    && (err == Nil ==> t' == t - own)
    && (reliable ==> err == Nil)
  }

  function StatusOf(codec: Codec, t: C.Table<C.ForwardingRule>, name: string): Option<LoadBalancerStatus> {
    if name in t then codec.fromStr(t[name].spec.description) else None
  }

  /** The status on the rules: the HTTP rule decides if there is one, otherwise
      the HTTPS rule. */
  function RuleStatus(codec: Codec, namer: Namer, t: C.Table<C.ForwardingRule>): Option<LoadBalancerStatus> {
    StatusOf(codec, t, namer.Name(if namer.Name(HttpRule) in t then HttpRule else HttpsRule))
  }

  class Syncer {
    const namer: Namer
    const cloud: C.Cloud
    const codec: Codec

    constructor (namer: Namer, cloud: C.Cloud, codec: Codec)
      ensures this.namer == namer && this.cloud == cloud && this.codec == codec
    {
      this.namer, this.cloud, this.codec := namer, cloud, codec;
    }

    /** updateForwardingRule: delete and recreate, or set the proxy in place. */
    method Update(name: string, existing: C.ForwardingRule, desired: C.ForwardingRule) returns (err: Err)
      modifies cloud`forwardingRules
      ensures !SameButProxy(existing, desired) ==>
                && (|| cloud.forwardingRules == old(cloud.forwardingRules)
                    || cloud.forwardingRules == old(cloud.forwardingRules) - {name}
                    || C.Wrote(old(cloud.forwardingRules), cloud.forwardingRules, name, desired))
                && (err == Nil ==> C.Wrote(old(cloud.forwardingRules), cloud.forwardingRules, name, desired))
                && (cloud.reliable ==> err == Nil)
      ensures SameButProxy(existing, desired) ==>
                && (name !in old(cloud.forwardingRules) ==>
                      cloud.forwardingRules == old(cloud.forwardingRules) && err != Nil)
                && (name in old(cloud.forwardingRules) ==>
                      C.Edited(old(cloud.forwardingRules), cloud.forwardingRules, name,
                               old(cloud.forwardingRules)[name].spec.(target := desired.target), err, cloud.reliable))
    {
      if existing.ipAddress != desired.ipAddress || existing.portRange != desired.portRange ||
         existing.ipProtocol != desired.ipProtocol || existing.description != desired.description {
        cloud.forwardingRules, err := C.Remove(cloud.forwardingRules, name, false, cloud.reliable);
        if err != Nil && err != NotFound {
          return Other;
        }
        cloud.forwardingRules, err := C.Insert(cloud.forwardingRules, name, desired, cloud.reliable);
        return;
      }
      err := cloud.SetRuleTarget(name, desired.target);
    }

    /** ensureForwardingRule. */
    method Ensure(name: string, want: C.ForwardingRule, force: bool) returns (err: Err)
      modifies cloud`forwardingRules
      ensures Outcome(old(cloud.forwardingRules), cloud.forwardingRules, name, want, force, err, cloud.reliable)
    {
      var existing, getErr := C.Fetch(cloud.forwardingRules, name, cloud.reliable);
      if getErr == Nil {
        if existing.value.spec == want {
          return Nil;
        }
        if force {
          err := Update(name, existing.value.spec, want);
          return;
        }
        return Other;
      }
      cloud.forwardingRules, err := C.Insert(cloud.forwardingRules, name, want, cloud.reliable);
    }

    method EnsureHttpRule(lbName: string, ip: string, target: C.Link, force: bool) returns (err: Err)
      modifies cloud`forwardingRules
      ensures Outcome(old(cloud.forwardingRules), cloud.forwardingRules, namer.Name(HttpRule),
                      DesiredHttp(lbName, ip, target), force, err, cloud.reliable)
    {
      err := Ensure(namer.Name(HttpRule), DesiredHttp(lbName, ip, target), force);
    }

    method EnsureHttpsRule(lbName: string, ip: string, target: C.Link, force: bool) returns (err: Err)
      modifies cloud`forwardingRules
      ensures Outcome(old(cloud.forwardingRules), cloud.forwardingRules, namer.Name(HttpsRule),
                      DesiredHttps(lbName, ip, target), force, err, cloud.reliable)
    {
      err := Ensure(namer.Name(HttpsRule), DesiredHttps(lbName, ip, target), force);
    }

    /** DeleteForwardingRules: the HTTP rule, then the HTTPS rule. */
    method DeleteForwardingRules() returns (err: Err)
      modifies cloud`forwardingRules
      ensures RulesPurged(namer, old(cloud.forwardingRules), cloud.forwardingRules, err, cloud.reliable)
    {
      err := Nil;
      var e: Err;
      cloud.forwardingRules, e := C.Remove(cloud.forwardingRules, namer.Name(HttpRule), false, cloud.reliable);
      if e != NotFound {
        err := Append(err, e);
      }
      cloud.forwardingRules, e := C.Remove(cloud.forwardingRules, namer.Name(HttpsRule), false, cloud.reliable);
      if e != NotFound {
        err := Append(err, e);
      }
    }

    /** GetLoadBalancerStatus: from the HTTP rule or else the HTTPS rule. */
    method GetLoadBalancerStatus() returns (status: Option<LoadBalancerStatus>, err: Err)
      ensures err == Nil <==> status.Some?
      ensures status.Some? ==>
                || status == StatusOf(codec, cloud.forwardingRules, namer.Name(HttpRule))
                || status == StatusOf(codec, cloud.forwardingRules, namer.Name(HttpsRule))
      ensures err == NotFound ==>
                namer.Name(HttpRule) !in cloud.forwardingRules && namer.Name(HttpsRule) !in cloud.forwardingRules
      ensures cloud.reliable ==> status == RuleStatus(codec, namer, cloud.forwardingRules)
      ensures var http, https := namer.Name(HttpRule), namer.Name(HttpsRule);
              cloud.reliable ==>
                if http in cloud.forwardingRules
                    then status == codec.fromStr(cloud.forwardingRules[http].spec.description)
                else if https in cloud.forwardingRules
                    then status == codec.fromStr(cloud.forwardingRules[https].spec.description)
                else status.None?
    {
      var http, httpErr := C.Fetch(cloud.forwardingRules, namer.Name(HttpRule), cloud.reliable);
      if httpErr == Nil {
        status := codec.fromStr(http.value.spec.description);
        return status, if status.Some? then Nil else Other;
      }
      var https, httpsErr := C.Fetch(cloud.forwardingRules, namer.Name(HttpsRule), cloud.reliable);
      if httpsErr == Nil {
        status := codec.fromStr(https.value.spec.description);
        return status, if status.Some? then Nil else Other;
      }
      return None, if httpErr == NotFound && httpsErr == NotFound then NotFound else Other;
    }

    /** removeClustersFromStatus for one rule. `desiredFR := existingFR` makes the
        desired and the existing rule one and the same object, so the edited rule
        is also what it is compared with. */
    method RemoveClustersFromRule(name: string, clusters: seq<string>) returns (err: Err)
      modifies cloud`forwardingRules
      ensures cloud.forwardingRules == old(cloud.forwardingRules)
      ensures err == NotFound ==> name !in cloud.forwardingRules
      ensures err == Nil ==> name in cloud.forwardingRules
      ensures cloud.reliable ==> err == if name in cloud.forwardingRules then Nil else NotFound
    {
      var existing, getErr := C.Fetch(cloud.forwardingRules, name, cloud.reliable);
      if getErr != Nil {
        return if getErr == NotFound then NotFound else Other;
      }
      var description, statusErr := RemoveClusters(codec, existing.value.spec.description, clusters);
      if statusErr != Nil {
        return Other;
      }
      var rule := existing.value.spec.(description := description);
      err := Update(name, rule, rule);
      assert cloud.forwardingRules == old(cloud.forwardingRules);
    }

    /** RemoveClustersFromStatus: on a cloud that hands out copies it never
        changes a stored rule; RuleAliasing shows why. */
    method RemoveClustersFromStatus(clusters: seq<string>) returns (err: Err)
      modifies cloud`forwardingRules
      ensures cloud.forwardingRules == old(cloud.forwardingRules)
      ensures err == NotFound ==>
                namer.Name(HttpRule) !in cloud.forwardingRules && namer.Name(HttpsRule) !in cloud.forwardingRules
      ensures err == Nil ==>
                namer.Name(HttpRule) in cloud.forwardingRules || namer.Name(HttpsRule) in cloud.forwardingRules
      ensures cloud.reliable ==>
                err == if namer.Name(HttpRule) in cloud.forwardingRules ||
                    namer.Name(HttpsRule) in cloud.forwardingRules then Nil else NotFound
    {
      var httpsErr := RemoveClustersFromRule(namer.Name(HttpsRule), clusters);
      var httpErr := RemoveClustersFromRule(namer.Name(HttpRule), clusters);
      if httpErr == NotFound && httpsErr == NotFound {
        return httpErr;
      }
      if (httpErr == Nil || httpErr == NotFound) && (httpsErr == Nil || httpsErr == NotFound) {
        return Nil;
      }
      if httpsErr == Nil || httpsErr == NotFound {
        return httpErr;
      }
      if httpErr == Nil || httpErr == NotFound {
        return httpsErr;
      }
      return Other;
    }
  }
}
