/** Pre-flight checks: equal node ports in all clusters, supported versions. */
module Validations {
  import opened Prelude
  import opened Names
  import opened Ingress

  // ---------- Node ports ----------

  const SENTINEL: int := -1

  /** The verdict of nodePortSameInAllClusters when Go visits the clusters in
      this order, with `current` as the port remembered so far. */
  predicate SamePortsInOrder(order: seq<string>, lookup: string -> Option<int>, current: int) {
    if order == [] then true
    else
      var p := lookup(order[0]);
      && p.Some?
      && (current == SENTINEL || p.value == current)
      && SamePortsInOrder(order[1..], lookup, p.value)
  }

  ghost predicate AllResolve(clusters: set<string>, lookup: string -> Option<int>) {
    forall c :: c in clusters ==> lookup(c).Some?
  }

  /** What the check promises: the service resolves everywhere, to one port. */
  ghost predicate PortsAgree(clusters: set<string>, lookup: string -> Option<int>) {
    && AllResolve(clusters, lookup)
    && forall c, d :: c in clusters && d in clusters ==> lookup(c) == lookup(d)
  }

  ghost predicate NoSentinel(clusters: set<string>, lookup: string -> Option<int>) {
    forall c :: c in clusters ==> lookup(c) != Some(SENTINEL)
  }

  /** nodePortSameInAllClusters, visiting the clusters in an arbitrary order. */
  method NodePortSameInAllClusters(clusters: set<string>, lookup: string -> Option<int>)
    returns (err: Err, ghost order: seq<string>)
    ensures Enumerates(order, clusters)
    ensures err == Nil <==> SamePortsInOrder(order, lookup, SENTINEL)
    ensures NoSentinel(clusters, lookup) ==> (err == Nil <==> PortsAgree(clusters, lookup))
  {
    var names := RangeOrder(clusters);
    order := names;
    NoSentinelLaw(order, lookup, clusters);
    var nodePort := SENTINEL;
    assert names[0..] == names;
    for i := 0 to |names|
      invariant SamePortsInOrder(names, lookup, SENTINEL) <==> SamePortsInOrder(names[i..], lookup, nodePort)
    {
      var servicePort := lookup(names[i]);
      assert names[i..][1..] == names[i + 1..];
      if servicePort.None? {
        return Other, order;
      }
      if nodePort == SENTINEL {
        nodePort := servicePort.value;
        continue;
      }
      if servicePort.value != nodePort {
        return Other, order;
      }
    }
    err := Nil;
  }

  /** What is left of an order after the leading clusters that report the sentinel. */
  function AfterSentinels(order: seq<string>, lookup: string -> Option<int>): (r: seq<string>)
    ensures |r| <= |order| && r == order[|order| - |r|..]
  {
    if order != [] && lookup(order[0]) == Some(SENTINEL) then AfterSentinels(order[1..], lookup) else order
  }

  lemma {:induction false} FixedPortLaw(order: seq<string>, lookup: string -> Option<int>, port: int)
    requires port != SENTINEL
    ensures SamePortsInOrder(order, lookup, port) <==> forall c :: c in order ==> lookup(c) == Some(port)
  {
    if order != [] {
      FixedPortLaw(order[1..], lookup, port);
      assert forall c :: c in order <==> c == order[0] || c in order[1..];
    }
  }

  /** The exact verdict for one order: once the leading clusters that report
      the sentinel are skipped, every other cluster reports one and the same port. */
  lemma {:induction false} SentinelLaw(order: seq<string>, lookup: string -> Option<int>)
    ensures SamePortsInOrder(order, lookup, SENTINEL) <==>
            var rest := AfterSentinels(order, lookup);
            forall c :: c in rest ==> lookup(c).Some? && lookup(c) == lookup(rest[0])
  {
    if order != [] {
      var p := lookup(order[0]);
      if p == Some(SENTINEL) {
        SentinelLaw(order[1..], lookup);
      } else if p.Some? {
        FixedPortLaw(order[1..], lookup, p.value);
        assert forall c :: c in order <==> c == order[0] || c in order[1..];
      } else {
        assert order[0] in order;
      }
    }
  }

  /** With ports other than the sentinel, the verdict is agreement, whatever the order. */
  lemma NoSentinelLaw(order: seq<string>, lookup: string -> Option<int>, clusters: set<string>)
    requires Enumerates(order, clusters)
    ensures NoSentinel(clusters, lookup) ==>
            (SamePortsInOrder(order, lookup, SENTINEL) <==> PortsAgree(clusters, lookup))
  {
    if NoSentinel(clusters, lookup) && order != [] {
      var first := order[0];
      assert first in clusters;
      AgreeWithFirst(clusters, lookup, first);
      if lookup(first).Some? {
        FixedPortLaw(order[1..], lookup, lookup(first).value);
        assert forall c :: c in order <==> c == first || c in order[1..];
        assert forall c :: c in order <==> c in clusters;
      }
    }
  }

  lemma AgreeWithFirst(clusters: set<string>, lookup: string -> Option<int>, first: string)
    requires first in clusters
    ensures PortsAgree(clusters, lookup) <==>
            lookup(first).Some? && forall c :: c in clusters ==> lookup(c) == lookup(first)
  {
  }

  /** The sentinel is a real blind spot: a cluster that reports -1 before one
      that reports 80 passes, the other way round it does not. */
  lemma SentinelHidesDisagreement()
    ensures var lookup := (c: string) => if c == "a" then Some(-1) else Some(80);
            && !PortsAgree({"a", "b"}, lookup)
            && SamePortsInOrder(["a", "b"], lookup, SENTINEL)
            && !SamePortsInOrder(["b", "a"], lookup, SENTINEL)
  {
    var lookup := (c: string) => if c == "a" then Some(-1) else Some(80);
    assert "a" in {"a", "b"} && "b" in {"a", "b"} && lookup("a") != lookup("b");
    assert ["a", "b"][1..] == ["b"] && ["b", "a"][1..] == ["a"];
  }

  // ---------- All services of an ingress ----------

  function PortLookup(w: World, be: Backend): string -> Option<int> {
    c => match w.service(c, be) case None => None case Some((port, _)) => Some(port as int)
  }

  lemma PortsAreNotSentinels(w: World, be: Backend, clusters: set<string>)
    ensures NoSentinel(clusters, PortLookup(w, be))
  {
    forall c | c in clusters ensures PortLookup(w, be)(c) != Some(SENTINEL) {
      if w.service(c, be).Some? {
        var port: Port := w.service(c, be).value.0;
        assert PortLookup(w, be)(c) == Some(port as int);
      }
    }
  }

  /** The service behind this backend has one node port in all clusters. */
  ghost predicate BackendPasses(w: World, clusters: set<string>, be: Backend) {
    PortsAgree(clusters, PortLookup(w, be))
  }

  /** What the documentation of servicesNodePortsSame promises. */
  ghost predicate AllServicesPass(w: World, clusters: set<string>, ing: Spec) {
    ing.backend.Some? && forall be :: be in MentionedBackends(ing) ==> BackendPasses(w, clusters, be)
  }

  /** servicesNodePortsSame. The error built for a failing path is handed to
      multierror.Append but the result is dropped, so only the default backend
      decides: the verdict is the documented one exactly unless it passes an
      ingress with a path that fails. */
  method ServicesNodePortsSame(w: World, clusters: set<string>, ing: Spec) returns (err: Err)
    ensures err == Nil <==> ing.backend.Some? && BackendPasses(w, clusters, ing.backend.value)
    ensures (err == Nil <==> AllServicesPass(w, clusters, ing)) <==>
            !(ing.backend.Some? && BackendPasses(w, clusters, ing.backend.value) &&
              exists be :: be in RuleBackends(ing.rules) && !BackendPasses(w, clusters, be))
  {
    hide PortsAgree;
    DefaultIsMentioned(ing);
    err := Nil;
    for i := 0 to |ing.rules|
      invariant err == Nil
    {
      var rule := ing.rules[i];
      if rule.http.None? {
        continue;
      }
      for j := 0 to |rule.http.value|
        invariant err == Nil
      {
        var pathErr, _ := NodePortSameInAllClusters(clusters, PortLookup(w, rule.http.value[j].backend));
        var dropped := Append(err, pathErr);
      }
    }
    if ing.backend.Some? {
      var beErr, _ := NodePortSameInAllClusters(clusters, PortLookup(w, ing.backend.value));
      PortsAreNotSentinels(w, ing.backend.value, clusters);
      err := Append(err, beErr);
    } else {
      err := Append(err, Other);
    }
  }

  lemma DefaultIsMentioned(ing: Spec)
    ensures forall be :: be in MentionedBackends(ing) <==>
              be in RuleBackends(ing.rules) || (ing.backend.Some? && be == ing.backend.value)
  {
    if ing.backend.Some? {
      assert MentionedBackends(ing)[0] == ing.backend.value;
    }
  }

  function OnePath(good: Backend, bad: Backend): Spec {
    Spec("ns", Some(good), [Rule("h", Some([PathEntry("/p", bad)]))], "ip", true, "", false)
  }

  lemma OnePathMentions(good: Backend, bad: Backend)
    ensures bad in MentionedBackends(OnePath(good, bad))
  {
    var rule := Rule("h", Some([PathEntry("/p", bad)]));
    assert PathBackends([PathEntry("/p", bad)]) == [bad];
    assert [rule][..0] == [];
    assert RuleBackends([rule]) == [bad];
    assert MentionedBackends(OnePath(good, bad))[1] == bad;
  }

  /** A path whose service differs between the clusters is not reported. */
  lemma PathErrorIsDropped(w: World, good: Backend, bad: Backend)
    requires w.service("a", good) == Some((80, "HTTP")) && w.service("b", good) == Some((80, "HTTP"))
    requires w.service("a", bad) == Some((81, "HTTP")) && w.service("b", bad) == Some((82, "HTTP"))
    ensures BackendPasses(w, {"a", "b"}, OnePath(good, bad).backend.value)
    ensures !AllServicesPass(w, {"a", "b"}, OnePath(good, bad))
  {
    hide MentionedBackends;
    OnePathMentions(good, bad);
    assert PortLookup(w, bad)("a") != PortLookup(w, bad)("b");
    assert "a" in {"a", "b"} && "b" in {"a", "b"};
    assert !BackendPasses(w, {"a", "b"}, bad);
  }

  // ---------- Versions ----------

  predicate IsDigit(c: char) { '0' <= c <= '9' }

  /** How many digits follow position `from`. */
  function DigitRun(s: string, from: nat): (k: nat)
    requires from <= |s|
    ensures from + k <= |s|
    ensures forall i :: from <= i < from + k ==> IsDigit(s[i])
    ensures from + k < |s| ==> !IsDigit(s[from + k])
    decreases |s| - from
  {
    if from < |s| && IsDigit(s[from]) then 1 + DigitRun(s, from + 1) else 0
  }

  /** A regular expression dot: any character but a newline. */
  predicate Dot(s: string, i: nat) {
    i < |s| && s[i] != '\n'
  }

  /** The groups of ^v([0-9]*).([0-9]*).([0-9]*) as the regexp package finds
      them: each star takes as many digits as it can and gives some back only
      when the rest of the pattern cannot match. */
  datatype Groups3 = Groups3(major: string, minor: string, patch: string)

  function MatchMinor(s: string, from: nat, k: nat): Option<(string, string)>
    requires from + k <= |s|
  {
    var dot := from + k;
    if Dot(s, dot) then Some((s[from..dot], s[dot + 1..dot + 1 + DigitRun(s, dot + 1)]))
    else if k == 0 then None
    else MatchMinor(s, from, k - 1)
  }

  function MatchMajor(s: string, k: nat): Option<Groups3>
    requires 1 + k <= |s|
  {
    var dot := 1 + k;
    var rest := if Dot(s, dot) then MatchMinor(s, dot + 1, DigitRun(s, dot + 1)) else None;
    if rest.Some? then Some(Groups3(s[1..dot], rest.value.0, rest.value.1))
    else if k == 0 then None
    else MatchMajor(s, k - 1)
  }

  function MatchVersion(s: string): Option<Groups3> {
    if s == "" || s[0] != 'v' then None else MatchMajor(s, DigitRun(s, 1))
  }

  const UINT32_LIMIT: nat := 0x1_0000_0000

  /** strconv.ParseUint of a digit string with a 32 bit limit. */
  function ParseUint32(s: string): (r: Option<nat>)
    ensures r.Some? ==> r.value < UINT32_LIMIT
  {
    if s == "" || (exists i :: 0 <= i < |s| && !IsDigit(s[i])) then None
    else
      var n := DecimalValue(s);
      if n < UINT32_LIMIT then Some(n) else None
  }

  function ParseVersion(s: string): Option<(nat, nat, nat)> {
    match MatchVersion(s)
    case None => None
    case Some(g) =>
      var major, minor, patch := ParseUint32(g.major), ParseUint32(g.minor), ParseUint32(g.patch);
      if major.None? || minor.None? || patch.None? then None
      else Some((major.value, minor.value, patch.value))
  }

  predicate AllDigits(d: string) {
    forall i :: 0 <= i < |d| ==> IsDigit(d[i])
  }

  lemma {:induction false} DigitRunOf(s: string, from: nat, d: string)
    requires from + |d| <= |s| && s[from..from + |d|] == d && AllDigits(d)
    requires from + |d| < |s| ==> !IsDigit(s[from + |d|])
    ensures DigitRun(s, from) == |d|
    decreases |d|
  {
    if d != "" {
      assert s[from] == s[from..from + |d|][0];
      assert s[from + 1..from + |d|] == s[from..from + |d|][1..];
      DigitRunOf(s, from + 1, d[1..]);
    }
  }

  /** Printed components are read back, whatever non-digit characters separate
      them (the dots of the pattern are not escaped) and whatever follows that
      does not begin with a digit. */
  lemma VersionRoundTrip(a: nat, b: nat, c: nat, x: char, y: char, suffix: string)
    requires a < UINT32_LIMIT && b < UINT32_LIMIT && c < UINT32_LIMIT
    requires !IsDigit(x) && !IsDigit(y) && x != '\n' && y != '\n'
    requires suffix == "" || !IsDigit(suffix[0])
    ensures ParseVersion("v" + Decimal(a) + [x] + Decimal(b) + [y] + Decimal(c) + suffix) == Some((a, b, c))
  {
    var da, db, dc := Decimal(a), Decimal(b), Decimal(c);
    var s := "v" + da + [x] + db + [y] + dc + suffix;
    VersionGroups(da, db, dc, x, y, suffix);
    DecimalRoundTrip(a);
    DecimalRoundTrip(b);
    DecimalRoundTrip(c);
  }

  lemma VersionGroups(da: string, db: string, dc: string, x: char, y: char, suffix: string)
    requires AllDigits(da) && AllDigits(db) && AllDigits(dc)
    requires !IsDigit(x) && !IsDigit(y) && x != '\n' && y != '\n'
    requires suffix == "" || !IsDigit(suffix[0])
    ensures MatchVersion("v" + da + [x] + db + [y] + dc + suffix) == Some(Groups3(da, db, dc))
  {
    var head, mid, tail := "v" + da + [x], db + [y], dc + suffix;
    var s := "v" + da + [x] + db + [y] + dc + suffix;
    assert s == head + (mid + tail) == (head + mid) + tail;
    var p := 1 + |da|;
    var q := p + 1 + |db|;
    assert s[1..p] == head[1..p] == da && s[p] == head[p] == x;
    assert s[p + 1..q] == (mid + tail)[..|db|] == db && s[q] == (mid + tail)[|db|] == y;
    assert s[q + 1..q + 1 + |dc|] == tail[..|dc|] == dc;
    assert q + 1 + |dc| < |s| ==> s[q + 1 + |dc|] == tail[|dc|] == suffix[0];
    GroupsAt(s, da, db, dc);
  }

  lemma GroupsAt(s: string, da: string, db: string, dc: string)
    requires AllDigits(da) && AllDigits(db) && AllDigits(dc)
    requires |s| >= 3 + |da| + |db| + |dc| && s[0] == 'v'
    requires var p := 1 + |da|; s[1..p] == da && !IsDigit(s[p]) && s[p] != '\n'
    requires var p, q := 2 + |da|, 2 + |da| + |db|; s[p..q] == db && !IsDigit(s[q]) && s[q] != '\n'
    requires var q := 3 + |da| + |db|; s[q..q + |dc|] == dc && (q + |dc| < |s| ==> !IsDigit(s[q + |dc|]))
    ensures MatchVersion(s) == Some(Groups3(da, db, dc))
  {
    DigitRunOf(s, 1, da);
    MinorAt(s, 2 + |da|, db, dc);
    hide MatchMinor, DigitRun, AllDigits, IsDigit;
    assert Dot(s, 1 + |da|);
  }

  lemma MinorAt(s: string, from: nat, db: string, dc: string)
    requires AllDigits(db) && AllDigits(dc)
    requires from + |db| + 1 + |dc| <= |s|
    requires var q := from + |db|; s[from..q] == db && !IsDigit(s[q]) && s[q] != '\n'
    requires var q := from + |db| + 1; s[q..q + |dc|] == dc && (q + |dc| < |s| ==> !IsDigit(s[q + |dc|]))
    ensures MatchMinor(s, from, DigitRun(s, from)) == Some((db, dc))
  {
    DigitRunOf(s, from, db);
    DigitRunOf(s, from + |db| + 1, dc);
    assert Dot(s, from + |db|);
  }

  // Which strings are read as a version, and as which.

  /** The parts of a version string. */
  datatype Version = Version(major: string, x: char, minor: string, y: char, patch: string, rest: string) {
    function Text(): string {
      "v" + major + [x] + minor + [y] + patch + rest
    }
  }

  predicate Number(d: string) {
    d != "" && AllDigits(d) && DecimalValue(d) < UINT32_LIMIT
  }

  predicate Separator(x: char) {
    !IsDigit(x) && x != '\n'
  }

  /** Three numbers, separated by anything that is no digit or newline. */
  predicate IsVersion(v: Version) {
    && Number(v.major) && Number(v.minor) && Number(v.patch) && Separator(v.x) && Separator(v.y)
    && (v.rest == "" || !IsDigit(v.rest[0]))
  }

  function Value(v: Version): (nat, nat, nat)
    requires IsVersion(v)
  {
    (DecimalValue(v.major), DecimalValue(v.minor), DecimalValue(v.patch))
  }

  /** A minor that gives back a digit leaves no patch. */
  lemma MinorCut(s: string, from: nat)
    requires from <= |s| && !Dot(s, from + DigitRun(s, from))
    ensures var m := MatchMinor(s, from, DigitRun(s, from)); m.Some? ==> m.value.1 == ""
  {
    var k := DigitRun(s, from);
    if k > 0 {
      assert Dot(s, from + k - 1);
      assert DigitRun(s, from + k) == 0;
    }
  }

  /** The full run of digits after the v is a major that leaves a minor. */
  predicate WholeMajor(s: string)
    requires s != ""
  {
    var k := DigitRun(s, 1);
    Dot(s, 1 + k) && MatchMinor(s, 2 + k, DigitRun(s, 2 + k)).Some?
  }

  /** A major that gives back a digit leaves no minor. */
  lemma MajorCut(s: string)
    requires s != "" && s[0] == 'v' && !WholeMajor(s)
    ensures MatchVersion(s).Some? ==> MatchVersion(s).value.minor == ""
  {
    var k := DigitRun(s, 1);
    if k > 0 {
      assert MatchMajor(s, k) == MatchMajor(s, k - 1);
      assert DigitRun(s, 1 + k) == 0 && Dot(s, k);
      if Dot(s, 1 + k) {
        assert MatchMinor(s, 1 + k, 0).Some? && MatchMinor(s, 1 + k, 0).value.0 == "";
      } else if k > 1 {
        assert MatchMinor(s, 1 + k, 0).None?;
        assert MatchMajor(s, k - 1) == MatchMajor(s, k - 2);
        assert DigitRun(s, k) == 1 && Dot(s, k - 1);
        assert MatchMinor(s, k, 1) == MatchMinor(s, k, 0);
        assert MatchMinor(s, k, 0).Some? && MatchMinor(s, k, 0).value.0 == "";
      }
    }
  }

  lemma Pieces(s: string, p: nat, q: nat, e: nat)
    requires 1 <= p < q < e <= |s| && s[0] == 'v'
    ensures Version(s[1..p], s[p], s[p + 1..q], s[q], s[q + 1..e], s[e..]).Text() == s
  {
    assert "v" + s[1..p] == s[..p];
    assert s[..p] + [s[p]] == s[..p + 1];
    assert s[..p + 1] + s[p + 1..q] == s[..q];
    assert s[..q] + [s[q]] == s[..q + 1];
    assert s[..q + 1] + s[q + 1..e] == s[..e];
    assert s[..e] + s[e..] == s;
  }

  /** The digits from one position to another, and no more after them. */
  predicate Run(s: string, from: nat, to: nat) {
    from <= to <= |s| && AllDigits(s[from..to]) && (to < |s| ==> !IsDigit(s[to]))
  }

  lemma RunOf(s: string, from: nat)
    requires from <= |s|
    ensures Run(s, from, from + DigitRun(s, from))
  {
  }

  lemma MinorWhole(s: string, from: nat) returns (q: nat, e: nat)
    requires from <= |s|
    requires MatchMinor(s, from, DigitRun(s, from)).Some? && MatchMinor(s, from, DigitRun(s, from)).value.1 != ""
    ensures from <= q < e <= |s| && Dot(s, q) && Run(s, from, q) && Run(s, q + 1, e)
    ensures MatchMinor(s, from, DigitRun(s, from)) == Some((s[from..q], s[q + 1..e]))
  {
    if !Dot(s, from + DigitRun(s, from)) {
      MinorCut(s, from);
      assert false;
    }
    RunOf(s, from);
    q := from + DigitRun(s, from);
    RunOf(s, q + 1);
    e := q + 1 + DigitRun(s, q + 1);
    hide DigitRun, Run;
  }

  lemma MajorWhole(s: string) returns (p: nat)
    requires s != "" && s[0] == 'v' && MatchVersion(s).Some? && MatchVersion(s).value.minor != ""
    ensures 1 <= p < |s| && Dot(s, p) && Run(s, 1, p) && MatchVersion(s).value.major == s[1..p]
    ensures MatchMinor(s, p + 1, DigitRun(s, p + 1)) == Some((MatchVersion(s).value.minor, MatchVersion(s).value.patch))
  {
    hide MatchMinor;
    if !WholeMajor(s) {
      MajorCut(s);
      assert false;
    }
    RunOf(s, 1);
    p := 1 + DigitRun(s, 1);
    hide DigitRun, Run;
  }

  /** Every string that is read has the form of a version. */
  lemma ReadMeansVersion(s: string) returns (v: Version)
    requires ParseVersion(s).Some?
    ensures IsVersion(v) && v.Text() == s && ParseVersion(s) == Some(Value(v))
  {
    hide DigitRun, MatchMinor, MatchMajor, DecimalValue, IsDigit, Version.Text, AllDigits;
    var p := MajorWhole(s);
    var q, e := MinorWhole(s, p + 1);
    v := Version(s[1..p], s[p], s[p + 1..q], s[q], s[q + 1..e], s[e..]);
    Pieces(s, p, q, e);
    assert MatchVersion(s) == Some(Groups3(v.major, v.minor, v.patch));
    assert AllDigits(v.major) && AllDigits(v.minor) && AllDigits(v.patch);
    NumberOf(v.major);
    NumberOf(v.minor);
    NumberOf(v.patch);
  }

  lemma NumberOf(d: string)
    requires AllDigits(d)
    ensures ParseUint32(d).Some? <==> Number(d)
    ensures Number(d) ==> ParseUint32(d) == Some(DecimalValue(d))
  {
  }

  lemma VersionIsRead(v: Version)
    requires IsVersion(v)
    ensures MatchVersion(v.Text()) == Some(Groups3(v.major, v.minor, v.patch))
    ensures ParseVersion(v.Text()) == Some(Value(v))
  {
    VersionGroups(v.major, v.minor, v.patch, v.x, v.y, v.rest);
  }

  /** The exact law of parseVersion: a string is read as (a, b, c) if and only if
      it is a v, three numbers of these values with any separators, and a rest
      that does not begin with a digit. */
  lemma ReadExactly(s: string, a: nat, b: nat, c: nat)
    ensures ParseVersion(s) == Some((a, b, c)) <==> exists v :: IsVersion(v) && v.Text() == s && Value(v) == (a, b, c)
  {
    hide MatchVersion, DecimalValue;
    if ParseVersion(s) == Some((a, b, c)) {
      var v := ReadMeansVersion(s);
    }
    if v :| IsVersion(v) && v.Text() == s && Value(v) == (a, b, c) {
      VersionIsRead(v);
    }
  }

  /** A string has the form of a version in one way only. */
  lemma VersionUnique(v: Version, w: Version)
    requires IsVersion(v) && IsVersion(w) && v.Text() == w.Text()
    ensures v == w
  {
    VersionIsRead(v);
    VersionIsRead(w);
    SeparatorsAt(v);
    SeparatorsAt(w);
  }

  lemma SeparatorsAt(v: Version)
    ensures var p := 1 + |v.major|;
            var q := p + 1 + |v.minor|;
            var e := q + 1 + |v.patch|;
            e <= |v.Text()| && v.Text()[p] == v.x && v.Text()[q] == v.y && v.Text()[e..] == v.rest
  {
    var head, mid := "v" + v.major + [v.x], v.minor + [v.y];
    assert v.Text() == head + (mid + (v.patch + v.rest)) == (head + mid + v.patch) + v.rest;
  }

  /** So a string that is read is a dotted version exactly if both of its
      separators are dots. */
  lemma DottedExactly(v: Version)
    requires IsVersion(v)
    ensures v.x == '.' && v.y == '.' <==> exists w :: IsVersion(w) && w.x == '.' && w.y == '.' && w.Text() == v.Text()
  {
    if w :| IsVersion(w) && w.x == '.' && w.y == '.' && w.Text() == v.Text() {
      VersionUnique(v, w);
    }
  }

  /** One that is read and is not. */
  lemma NotDotted()
    ensures ParseVersion("v1x9y3") == Some((1, 9, 3))
  {
    var v := Version("1", 'x', "9", 'y', "3", "");
    assert "1"[..0] == "" && "9"[..0] == "" && "3"[..0] == "";
    assert DecimalValue("1") == 1 && DecimalValue("9") == 9 && DecimalValue("3") == 3;
    assert v.Text() == "v1x9y3";
    VersionIsRead(v);
  }

  /** serverVersionNewEnough. */
  predicate NewEnough(major: nat, minor: nat, patch: nat) {
    if major == 1 && minor == 10 && patch == 0 then false
    else if major > 1 then true
    else if major < 1 then false
    else if minor > 8 then true
    else if minor < 8 then false
    else patch >= 1
  }

  function Rank(major: nat, minor: nat, patch: nat): int
    requires major < UINT32_LIMIT && minor < UINT32_LIMIT && patch < UINT32_LIMIT
  {
    (major * UINT32_LIMIT + minor) * UINT32_LIMIT + patch
  }

  /** A version string is accepted exactly when its components rank at least
      1.8.1 in lexicographic order and are not 1.10.0. */
  lemma AcceptanceThreshold(a: nat, b: nat, c: nat, suffix: string)
    requires a < UINT32_LIMIT && b < UINT32_LIMIT && c < UINT32_LIMIT
    requires suffix == "" || !IsDigit(suffix[0])
    ensures var v := ParseVersion("v" + Decimal(a) + "." + Decimal(b) + "." + Decimal(c) + suffix);
            && v.Some?
            && (NewEnough(v.value.0, v.value.1, v.value.2) <==>
                Rank(a, b, c) >= Rank(1, 8, 1) && (a, b, c) != (1, 10, 0))
  {
    VersionRoundTrip(a, b, c, '.', '.', suffix);
  }

  /** A server version that passes: it can be read and is new enough. */
  predicate Accepted(s: string) {
    var v := ParseVersion(s);
    v.Some? && NewEnough(v.value.0, v.value.1, v.value.2)
  }

  /** Whatever the string: it is accepted if and only if it has the form of a
      version that ranks at least 1.8.1 and is not 1.10.0. */
  lemma AcceptedExactly(s: string)
    ensures Accepted(s) <==>
            exists v :: IsVersion(v) && v.Text() == s && Value(v) != (1, 10, 0) &&
                        Rank(Value(v).0, Value(v).1, Value(v).2) >= Rank(1, 8, 1)
  {
    hide MatchVersion, DecimalValue;
    if Accepted(s) {
      var v := ReadMeansVersion(s);
    }
    if v :| IsVersion(v) && v.Text() == s && Value(v) != (1, 10, 0) &&
            Rank(Value(v).0, Value(v).1, Value(v).2) >= Rank(1, 8, 1) {
      VersionIsRead(v);
    }
  }
}
