/** Which path a health check probes: the one the readiness probes of all
    clusters agree on. */
module ProbePaths {
  import opened Prelude
  import opened Ingress

  /** HTTP probe paths in the order the clusters are visited. */
  function FoundPaths(order: seq<string>, probe: string -> Probe): seq<string> {
    if order == [] then []
    else
      var rest := FoundPaths(order[1..], probe);
      if probe(order[0]).HttpProbe? then [probe(order[0]).path] + rest else rest
  }

  ghost predicate NoProbeError(clusters: set<string>, probe: string -> Probe) {
    forall c :: c in clusters ==> !probe(c).ProbeError?
  }

  /** The scan over the found paths: the first non-empty one is kept and every
      later one must equal it. None is a mismatch. */
  function ScanPaths(found: seq<string>, path: string): Option<string> {
    if found == [] then Some(path)
    else if path != "" && found[0] != path then None
    else ScanPaths(found[1..], found[0])
  }

  function WithSlash(path: string): string {
    if |path| > 0 && path[0] == '/' then path else "/" + path
  }

  /** Outcome of getHealthCheckPath for one order of visiting the clusters. */
  function PathInOrder(order: seq<string>, probe: string -> Probe): Option<string> {
    if exists c :: c in order && probe(c).ProbeError? then None
    else
      var r := ScanPaths(FoundPaths(order, probe), "");
      if r.None? then None else Some(WithSlash(r.value))
  }

  /** What visiting one more cluster does to the scan. */
  lemma ScanStep(order: seq<string>, probe: string -> Probe, path: string)
    requires order != []
    ensures var p, rest := probe(order[0]), FoundPaths(order[1..], probe);
            ScanPaths(FoundPaths(order, probe), path) ==
            if !p.HttpProbe? then ScanPaths(rest, path)
            else if path != "" && p.path != path then None
            else ScanPaths(rest, p.path)
  {
    if probe(order[0]).HttpProbe? {
      assert FoundPaths(order, probe)[1..] == FoundPaths(order[1..], probe);
    }
  }

  lemma ScanDone(probe: string -> Probe, path: string)
    ensures ScanPaths(FoundPaths([], probe), path) == Some(path)
  {
  }

  /** getHealthCheckPath. A failed probe lookup is recorded and the scan goes
      on; two different paths stop it. */
  method GetHealthCheckPath(clusters: set<string>, probe: string -> Probe)
    returns (path: string, err: Err, ghost order: seq<string>)
    ensures Enumerates(order, clusters)
    ensures err == Nil <==> PathInOrder(order, probe).Some?
    ensures err == Nil ==> path == PathInOrder(order, probe).value
    ensures NoEmptyPath(clusters, probe) ==>
              && (err == Nil <==> NoProbeError(clusters, probe) && PathsAgree(clusters, probe))
              && (err == Nil ==> AgreedPath(clusters, probe, path))
  {
    var names := RangeOrder(clusters);
    order := names;
    if NoEmptyPath(clusters, probe) {
      PathLaw(order, clusters, probe);
    }
    hide PathsAgree, AgreedPath, NoEmptyPath, ScanPaths, FoundPaths;
    path, err := "", Nil;
    assert names[0..] == names;
    for i := 0 to |names|
      invariant err == Nil <==> forall c :: c in names[..i] ==> !probe(c).ProbeError?
      invariant ScanPaths(FoundPaths(names, probe), "") == ScanPaths(FoundPaths(names[i..], probe), path)
    {
      assert names[i..][1..] == names[i + 1..];
      ScanStep(names[i..], probe, path);
      assert names[..i + 1] == names[..i] + [names[i]];
      var p := probe(names[i]);
      if p.ProbeError? {
        err := Other;
        continue;
      }
      if p.HttpProbe? {
        if path != "" {
          if path != p.path {
            return path, Other, order;
          }
        } else {
          path := p.path;
        }
      }
    }
    assert names[..|names|] == names;
    ScanDone(probe, path);
    path := WithSlash(path);
  }

  function AfterEmpty(found: seq<string>): seq<string> {
    if found != [] && found[0] == "" then AfterEmpty(found[1..]) else found
  }

  lemma {:induction false} ScanFixed(found: seq<string>, path: string)
    requires path != ""
    ensures ScanPaths(found, path) == if forall p :: p in found ==> p == path then Some(path) else None
  {
    if found != [] {
      assert forall p :: p in found <==> p == found[0] || p in found[1..];
      if found[0] == path {
        ScanFixed(found[1..], path);
      } else {
        assert found[0] in found;
      }
    }
  }

  /** What one order finds: leading empty paths are skipped, and the rest must
      all be equal. */
  lemma {:induction false} ScanLaw(found: seq<string>)
    ensures var rest := AfterEmpty(found);
            ScanPaths(found, "") ==
              if rest == [] then Some("")
              else if forall p :: p in rest ==> p == rest[0] then Some(rest[0])
              else None
  {
    if found != [] {
      if found[0] == "" {
        ScanLaw(found[1..]);
      } else {
        ScanFixed(found[1..], found[0]);
        assert forall p :: p in found <==> p == found[0] || p in found[1..];
      }
    }
  }

  lemma {:induction false} FoundMembers(order: seq<string>, probe: string -> Probe, p: string)
    ensures p in FoundPaths(order, probe) <==> exists c :: c in order && probe(c) == HttpProbe(p)
  {
    if order != [] {
      FoundMembers(order[1..], probe, p);
      assert forall c :: c in order <==> c == order[0] || c in order[1..];
    }
  }

  /** No pod declares an HTTP probe with an empty path (the Kubernetes API
      server fills in "/"). */
  ghost predicate NoEmptyPath(clusters: set<string>, probe: string -> Probe) {
    forall c :: c in clusters ==> probe(c) != HttpProbe("")
  }

  /** All probes found name the same path. */
  ghost predicate PathsAgree(clusters: set<string>, probe: string -> Probe) {
    forall c, d :: c in clusters && d in clusters && probe(c).HttpProbe? && probe(d).HttpProbe? ==> probe(c) == probe(d)
  }

  /** The path itself if it begins with a slash, and else behind one. */
  predicate IsPathOf(path: string, found: string) {
    || (path == found && found != "" && found[0] == '/')
    || (path == "/" + found && (found == "" || found[0] != '/'))
  }

  /** `path` is what the probes of these clusters ask for. */
  ghost predicate AgreedPath(clusters: set<string>, probe: string -> Probe, path: string) {
    && NoProbeError(clusters, probe)
    && PathsAgree(clusters, probe)
    && (forall c :: c in clusters && probe(c).HttpProbe? ==> IsPathOf(path, probe(c).path))
    && ((forall c :: c in clusters ==> !probe(c).HttpProbe?) ==> path == "/")
  }

  /** Without empty probe paths the verdict does not depend on the order: it
      succeeds exactly when no lookup fails and all paths agree, and returns
      that path. */
  lemma PathLaw(order: seq<string>, clusters: set<string>, probe: string -> Probe)
    requires Enumerates(order, clusters) && NoEmptyPath(clusters, probe)
    ensures PathInOrder(order, probe).Some? <==> NoProbeError(clusters, probe) && PathsAgree(clusters, probe)
    ensures PathInOrder(order, probe).Some? ==> AgreedPath(clusters, probe, PathInOrder(order, probe).value)
  {
    var found := FoundPaths(order, probe);
    forall p ensures p in found <==> exists c :: c in clusters && probe(c) == HttpProbe(p) {
      FoundMembers(order, probe, p);
    }
    ScanLaw(found);
    if found != [] {
      assert found[0] in found;
      assert AfterEmpty(found) == found;
      if PathsAgree(clusters, probe) {
        forall p | p in found ensures p == found[0] {
          var c :| c in clusters && probe(c) == HttpProbe(p);
          var d :| d in clusters && probe(d) == HttpProbe(found[0]);
        }
      } else {
        var c, d :| c in clusters && d in clusters && probe(c).HttpProbe? && probe(d).HttpProbe? &&
            probe(c) != probe(d);
        assert probe(c).path in found && probe(d).path in found;
      }
    }
  }

  /** Two runs without empty probe paths agree on the path. */
  lemma AgreedPathUnique(clusters: set<string>, probe: string -> Probe, p: string, q: string)
    requires AgreedPath(clusters, probe, p) && AgreedPath(clusters, probe, q)
    ensures p == q
  {
    if !(forall c :: c in clusters ==> !probe(c).HttpProbe?) {
      var c :| c in clusters && probe(c).HttpProbe?;
    }
  }

  /** With an empty path the order matters: "" before "/a" is accepted, "/a"
      before "" is not. */
  lemma EmptyPathDependsOnOrder()
    ensures var probe := (c: string) => if c == "a" then HttpProbe("") else HttpProbe("/a");
            && PathInOrder(["a", "b"], probe) == Some("/a")
            && PathInOrder(["b", "a"], probe) == None
  {
    var probe := (c: string) => if c == "a" then HttpProbe("") else HttpProbe("/a");
    assert ["a", "b"][1..] == ["b"] && ["b", "a"][1..] == ["a"] && ["a"][1..] == [] && ["b"][1..] == [];
    assert FoundPaths(["a", "b"], probe) == ["", "/a"];
    assert FoundPaths(["b", "a"], probe) == ["/a", ""];
    assert ["", "/a"][1..] == ["/a"] && ["/a", ""][1..] == [""];
  }

  lemma {:induction false} AfterEmptyKeeps(found: seq<string>, p: string)
    requires p != ""
    ensures p in AfterEmpty(found) <==> p in found
  {
    if found != [] && found[0] == "" {
      AfterEmptyKeeps(found[1..], p);
    }
  }

  lemma {:induction false} AfterEmptyConcat(e: seq<string>, o: seq<string>)
    requires forall p :: p in e ==> p == ""
    requires forall p :: p in o ==> p != ""
    ensures AfterEmpty(e + o) == o
  {
    if e == [] {
      assert e + o == o;
      assert o != [] ==> o[0] in o;
    } else {
      assert (e + o)[1..] == e[1..] + o;
      assert e[0] in e;
      assert forall p :: p in e[1..] ==> p in e;
      AfterEmptyConcat(e[1..], o);
    }
  }

  lemma {:induction false} FoundConcat(a: seq<string>, b: seq<string>, probe: string -> Probe)
    ensures FoundPaths(a + b, probe) == FoundPaths(a, probe) + FoundPaths(b, probe)
  {
    if a == [] {
      assert a + b == b;
    } else {
      assert (a + b)[1..] == a[1..] + b;
      FoundConcat(a[1..], b, probe);
    }
  }

  predicate HasPath(probe: string -> Probe, c: string) {
    probe(c).HttpProbe? && probe(c).path != ""
  }

  /** Every lookup works, all non-empty paths agree, and some path is empty
      while some other is not. */
  ghost predicate EmptyAmongOthers(clusters: set<string>, probe: string -> Probe) {
    && NoProbeError(clusters, probe)
    && !NoEmptyPath(clusters, probe)
    && (exists c :: c in clusters && HasPath(probe, c))
    && (forall c, d :: c in clusters && d in clusters && HasPath(probe, c) && HasPath(probe, d) ==>
          probe(c) == probe(d))
  }

  /** Visiting the clusters with an empty path first succeeds. */
  lemma GoodOrder(clusters: set<string>, probe: string -> Probe) returns (good: seq<string>)
    requires EmptyAmongOthers(clusters, probe)
    ensures Enumerates(good, clusters) && PathInOrder(good, probe).Some?
  {
    hide FoundPaths, ScanPaths, AfterEmpty;
    var empty := set c | c in clusters && probe(c) == HttpProbe("");
    var others := clusters - empty;
    var e, o := Listing(empty), Listing(others);
    good := e + o;
    EnumeratesConcat(e, o, empty, others);
    assert empty + others == clusters;
    FoundConcat(e, o, probe);
    var fe, fo := FoundPaths(e, probe), FoundPaths(o, probe);
    forall p
      ensures (p in fe ==> p == "")
      ensures (p in fo ==> exists c :: c in clusters && HasPath(probe, c) && probe(c).path == p)
    {
      FoundMembers(e, probe, p);
      FoundMembers(o, probe, p);
    }
    AfterEmptyConcat(fe, fo);
    ScanLaw(fe + fo);
    assert fo != [] ==> fo[0] in fo;
  }

  lemma PathThenEmpty(d: string, tail: seq<string>, probe: string -> Probe, c: string)
    requires HasPath(probe, d) && c in tail && probe(c) == HttpProbe("")
    ensures PathInOrder([d] + tail, probe).None?
  {
    assert ([d] + tail)[1..] == tail;
    FoundMembers(tail, probe, "");
    var found := FoundPaths([d] + tail, probe);
    assert found[1..] == FoundPaths(tail, probe);
    ScanFixed(found[1..], found[0]);
  }

  /** Visiting one with a path first fails. */
  lemma BadOrder(clusters: set<string>, probe: string -> Probe) returns (bad: seq<string>)
    requires EmptyAmongOthers(clusters, probe)
    ensures Enumerates(bad, clusters) && PathInOrder(bad, probe).None?
  {
    var d :| d in clusters && HasPath(probe, d);
    var c :| c in clusters && probe(c) == HttpProbe("");
    var tail := Listing(clusters - {d});
    bad := [d] + tail;
    EnumeratesConcat([d], tail, {d}, clusters - {d});
    assert {d} + (clusters - {d}) == clusters;
    PathThenEmpty(d, tail, probe, c);
  }

  lemma SameForAllOrders(clusters: set<string>, probe: string -> Probe, o1: seq<string>, o2: seq<string>)
    requires !EmptyAmongOthers(clusters, probe)
    requires Enumerates(o1, clusters) && Enumerates(o2, clusters)
    ensures PathInOrder(o1, probe) == PathInOrder(o2, probe)
  {
    if NoProbeError(clusters, probe) {
      if NoEmptyPath(clusters, probe) {
        PathLaw(o1, clusters, probe);
        PathLaw(o2, clusters, probe);
        if PathInOrder(o1, probe).Some? {
          AgreedPathUnique(clusters, probe, PathInOrder(o1, probe).value, PathInOrder(o2, probe).value);
        }
      } else {
        EmptyOrMismatch(clusters, probe, o1);
        EmptyOrMismatch(clusters, probe, o2);
      }
    } else {
      var c :| c in clusters && probe(c).ProbeError?;
      assert c in o1 && c in o2;
    }
  }

  /** With no lookup error and some empty path, the outcome is "/" if no path is
      non-empty and a mismatch if two non-empty paths differ. */
  lemma EmptyOrMismatch(clusters: set<string>, probe: string -> Probe, order: seq<string>)
    requires Enumerates(order, clusters) && NoProbeError(clusters, probe)
    requires !NoEmptyPath(clusters, probe) && !EmptyAmongOthers(clusters, probe)
    ensures PathInOrder(order, probe) ==
            if forall c :: c in clusters && probe(c).HttpProbe? ==> probe(c).path == "" then Some("/") else None
  {
    var found := FoundPaths(order, probe);
    ScanLaw(found);
    var rest := AfterEmpty(found);
    if forall c :: c in clusters && probe(c).HttpProbe? ==> probe(c).path == "" {
      forall p | p in found ensures p == "" {
        FoundMembers(order, probe, p);
      }
      AfterEmptyConcat(found, []);
      assert found + [] == found;
      assert rest == [];
      assert WithSlash("") == "/";
    } else {
      assert exists c :: c in clusters && HasPath(probe, c);
      var c, d :| c in clusters && d in clusters && HasPath(probe, c) && HasPath(probe, d) && probe(c) != probe(d);
      FoundMembers(order, probe, probe(c).path);
      FoundMembers(order, probe, probe(d).path);
      AfterEmptyKeeps(found, probe(c).path);
      AfterEmptyKeeps(found, probe(d).path);
    }
  }

  /** The exact condition: the outcome is the same for every order unless the
      lookups all work and an empty path stands among equal non-empty ones. */
  lemma OrderIndependence(clusters: set<string>, probe: string -> Probe)
    ensures !EmptyAmongOthers(clusters, probe) <==>
            forall o1, o2 :: Enumerates(o1, clusters) && Enumerates(o2, clusters) ==>
              PathInOrder(o1, probe) == PathInOrder(o2, probe)
  {
    if EmptyAmongOthers(clusters, probe) {
      var good := GoodOrder(clusters, probe);
      var bad := BadOrder(clusters, probe);
      assert PathInOrder(good, probe) != PathInOrder(bad, probe);
    } else {
      forall o1, o2 | Enumerates(o1, clusters) && Enumerates(o2, clusters)
        ensures PathInOrder(o1, probe) == PathInOrder(o2, probe)
      {
        SameForAllOrders(clusters, probe, o1, o2);
      }
    }
  }
}
