/** Removing clusters from the status on a forwarding rule, on the heap. The
    desired rule is made by `desiredFR := existingFR`, so desired and existing
    rule are one object; what that does depends on whether a get hands out the
    stored object or a copy of it. */
module RuleAliasing {
  import opened Prelude
  import opened Names
  import opened Status
  import C = Cloud
  import R = ForwardingRules

  /** A forwarding rule object. */
  class Rule {
    const name: string
    var spec: C.ForwardingRule

    constructor (name: string, spec: C.ForwardingRule)
      ensures this.name == name && this.spec == spec
    {
      this.name, this.spec := name, spec;
    }
  }

  datatype Call = Got(name: string) | Removed(name: string) | Stored(name: string) | ProxySet(name: string)

  /** The forwarding rule calls of a cloud that hands out its own objects if it
      is `sharing`, and otherwise copies. Any call can fail. */
  class Provider {
    const sharing: bool
    var rules: map<string, Rule>
    var calls: seq<Call>

    ghost predicate Valid()
      reads this
    {
      && (forall n :: n in rules ==> rules[n].name == n)
      && (forall n, m :: n in rules && m in rules && rules[n] == rules[m] ==> n == m)
    }

    ghost function Objects(): set<Rule>
      reads this
    {
      set n | n in rules :: rules[n]
    }

    /** What is stored, as values. */
    ghost function Contents(): map<string, C.ForwardingRule>
      reads this, Objects()
    {
      map n | n in rules :: rules[n].spec
    }

    method Get(name: string) returns (rule: Rule?, err: Err)
      requires Valid()
      modifies `calls
      ensures calls == old(calls) + [Got(name)]
      ensures err == Nil <==> rule != null
      ensures err == Nil ==> name in rules && rule.name == name && rule.spec == rules[name].spec
      ensures err == Nil ==> if sharing then rule == rules[name] else fresh(rule)
      ensures err == NotFound ==> name !in rules
    {
      calls := calls + [Got(name)];
      var fails: bool := *;
      if fails {
        return null, Other;
      }
      if name !in rules {
        return null, NotFound;
      }
      if sharing {
        rule := rules[name];
      } else {
        rule := new Rule(name, rules[name].spec);
      }
      err := Nil;
    }

    method Delete(name: string) returns (err: Err)
      requires Valid()
      modifies `calls, `rules
      ensures Valid() && calls == old(calls) + [Removed(name)]
      ensures rules == old(rules) || rules == old(rules) - {name}
    {
      calls := calls + [Removed(name)];
      var fails: bool := *;
      if fails {
        return Other;
      }
      if name !in rules {
        return NotFound;
      }
      rules := rules - {name};
      err := Nil;
    }

    method Create(rule: Rule) returns (err: Err)
      requires Valid()
      modifies `calls, `rules
      ensures calls == old(calls) + [Stored(rule.name)]
      ensures rules == old(rules) ||
              (rule.name in rules && rule.name !in old(rules) && rules == old(rules)[rule.name := rules[rule.name]])
    {
      calls := calls + [Stored(rule.name)];
      var fails: bool := *;
      if fails || rule.name in rules {
        return Other;
      }
      var copy := new Rule(rule.name, rule.spec);
      rules := rules[rule.name := if sharing then rule else copy];
      err := Nil;
    }

    method SetProxy(name: string, target: C.Link) returns (err: Err)
      requires Valid()
      modifies `calls, if name in rules then {rules[name]} else {}
      ensures calls == old(calls) + [ProxySet(name)]
      ensures err == Nil ==> name in rules
      ensures name in rules ==>
                rules[name].spec == old(rules[name].spec) ||
                    rules[name].spec == old(rules[name].spec).(target := target)
    {
      calls := calls + [ProxySet(name)];
      var fails: bool := *;
      if fails {
        return Other;
      }
      if name !in rules {
        return NotFound;
      }
      rules[name].spec := rules[name].spec.(target := target);
      err := Nil;
    }

    /** desiredForwardingRuleWithoutClusters: the result is the argument. */
    method DesiredWithoutClusters(codec: Codec, existing: Rule, clusters: seq<string>) returns (desired: Rule, err: Err)
      modifies existing
      ensures err == Nil && desired == existing
      ensures existing.spec ==
              old(existing.spec).(description :=
                                  StatusWithout(codec, old(existing.spec.description), Elements(clusters)))
    {
      var description;
      description, err := RemoveClusters(codec, existing.spec.description, clusters);
      desired := existing;
      desired.spec := desired.spec.(description := description);
    }

    /** updateForwardingRule: deletes and recreates unless only the proxy can
        differ, and a rule never differs from itself. */
    method Update(existing: Rule, desired: Rule) returns (err: Err)
      requires Valid()
      modifies `calls, `rules, if desired.name in rules then {rules[desired.name]} else {}
      ensures R.SameButProxy(old(existing.spec), old(desired.spec)) ==>
                && rules == old(rules) && calls == old(calls) + [ProxySet(desired.name)]
                && (err == Nil ==> desired.name in rules)
                && (desired.name in rules ==>
                      || rules[desired.name].spec == old(rules[desired.name].spec)
                      || rules[desired.name].spec == old(rules[desired.name].spec).(target := old(desired.spec.target)))
      ensures !R.SameButProxy(old(existing.spec), old(desired.spec)) ==>
                || calls == old(calls) + [Removed(desired.name)]
                || calls == old(calls) + [Removed(desired.name), Stored(desired.name)]
    {
      if existing.spec.ipAddress != desired.spec.ipAddress || existing.spec.portRange != desired.spec.portRange ||
         existing.spec.ipProtocol != desired.spec.ipProtocol || existing.spec.description != desired.spec.description {
        err := Delete(desired.name);
        if err != Nil && err != NotFound {
          return Other;
        }
        err := Create(desired);
        return;
      }
      err := SetProxy(desired.name, desired.spec.target);
    }

    /** removeClustersFromStatus for one rule. Once the rule was read, the only
        other call is the one that sets its proxy. Where objects are shared the
        stored status has lost the clusters by then; where copies are handed out
        no stored rule ever changes. */
    method RemoveClustersFromRule(codec: Codec, name: string, clusters: seq<string>) returns (err: Err,
        ghost found: bool)
      requires Valid()
      modifies `calls, `rules, Objects()
      ensures Valid() && rules == old(rules)
      ensures calls == old(calls) + (if found then [Got(name), ProxySet(name)] else [Got(name)])
      ensures found ==> name in rules
      ensures err == Nil ==> found
      ensures err == NotFound && !found ==> name !in rules
      ensures Contents() == if sharing &&
              found then WithoutStatus(codec, old(Contents()), name, Elements(clusters)) else old(Contents())
    {
      found := false;
      var existing, getErr := Get(name);
      if getErr != Nil {
        return if getErr == NotFound then NotFound else Other, false;
      }
      found := true;
      var desired, desiredErr := DesiredWithoutClusters(codec, existing, clusters);
      err := Update(existing, desired);
    }

    /** RemoveClustersFromStatus, on the HTTPS and the HTTP rule. */
    method RemoveClustersFromStatus(codec: Codec, namer: Namer, clusters: seq<string>) returns (err: Err,
        ghost https: bool, ghost http: bool)
      requires Valid()
      modifies `calls, `rules, Objects()
      ensures Valid() && rules == old(rules)
      ensures Contents() ==
              AfterStatusRemoval(codec, old(Contents()), namer, Elements(clusters), sharing && https, sharing && http)
      ensures err == Nil ==> (namer.Name(HttpsRule) in rules ==> https) && (namer.Name(HttpRule) in rules ==> http)
      ensures err == Nil && Lawful(codec) && namer == MciNamer(namer.lbName) ==>
                (NoneListed(codec, Contents(), namer, Elements(clusters)) <==>
                 sharing || NoneListed(codec, old(Contents()), namer, Elements(clusters)))
    {
      hide Lawful, NoneListed, Namer.Name, StatusWithout;
      var httpsErr, httpErr;
      httpsErr, https := RemoveClustersFromRule(codec, namer.Name(HttpsRule), clusters);
      httpErr, http := RemoveClustersFromRule(codec, namer.Name(HttpRule), clusters);
      if Lawful(codec) && namer == MciNamer(namer.lbName) && (namer.Name(HttpsRule) in rules ==>
            https) && (namer.Name(HttpRule) in rules ==> http) {
        NilResultMeans(codec, namer.lbName, old(Contents()), Elements(clusters), sharing, https, http);
      }
      if httpErr == NotFound && httpsErr == NotFound {
        return httpErr, https, http;
      }
      if (httpErr == Nil || httpErr == NotFound) && (httpsErr == Nil || httpsErr == NotFound) {
        return Nil, https, http;
      }
      if httpsErr == Nil || httpsErr == NotFound {
        return httpErr, https, http;
      }
      if httpErr == Nil || httpErr == NotFound {
        return httpsErr, https, http;
      }
      return Other, https, http;
    }
  }

  /** The stored rules after one of them lost these clusters from its status. */
  function WithoutStatus(codec: Codec, t: map<string, C.ForwardingRule>, name: string,
                         drop: set<string>): (r: map<string, C.ForwardingRule>)
  {
    if name in t then t[name := t[name].(description := StatusWithout(codec, t[name].description, drop))] else t
  }

  function AfterStatusRemoval(codec: Codec, t: map<string, C.ForwardingRule>, namer: Namer, drop: set<string>,
                              https: bool, http: bool)
    : map<string, C.ForwardingRule>
  {
    var t1 := if https then WithoutStatus(codec, t, namer.Name(HttpsRule), drop) else t;
    if http then WithoutStatus(codec, t1, namer.Name(HttpRule), drop) else t1
  }

  /** No status stored on a rule of this load balancer lists one of these. */
  ghost predicate NoneListed(codec: Codec, t: map<string, C.ForwardingRule>, namer: Namer, drop: set<string>) {
    forall role, c :: role in {HttpRule, HttpsRule} && namer.Name(role) in t && c in drop ==>
      !Listed(codec, t[namer.Name(role)].description, c)
  }

  predicate Listed(codec: Codec, description: string, c: string) {
    var status := codec.fromStr(description);
    status.Some? && c in status.value.clusters
  }

  lemma NoLongerListed(codec: Codec, description: string, drop: set<string>, c: string)
    requires Lawful(codec) && c in drop
    ensures !Listed(codec, StatusWithout(codec, description, drop), c)
  {
  }

  /** What a nil result is meant to say holds where objects are shared; where
      copies are handed out it holds exactly if it held before, for nothing
      changes. */
  lemma NilResultMeans(codec: Codec, l: string, t: map<string, C.ForwardingRule>, drop: set<string>, sharing: bool,
                       https: bool, http: bool)
    requires Lawful(codec)
    requires MciNamer(l).Name(HttpsRule) in t ==> https
    requires MciNamer(l).Name(HttpRule) in t ==> http
    ensures var t' := AfterStatusRemoval(codec, t, MciNamer(l), drop, sharing && https, sharing && http);
            && (NoneListed(codec, t', MciNamer(l), drop) <==> sharing || NoneListed(codec, t, MciNamer(l), drop))
            && (!sharing ==> t' == t)
  {
    var n := MciNamer(l);
    TwoRuleNames(l);
    hide Namer.Name, Lawful, StatusWithout, Listed;
    var t' := AfterStatusRemoval(codec, t, n, drop, sharing && https, sharing && http);
    if sharing {
      forall role, c | role in {HttpRule, HttpsRule} && n.Name(role) in t' && c in drop
        ensures !Listed(codec, t'[n.Name(role)].description, c)
      {
        NoLongerListed(codec, t[n.Name(role)].description, drop, c);
      }
    }
  }
}
