/** Printing and parsing of instance group URLs. */
module GroupLinks {
  import opened Prelude

  const IG_SEPARATOR := "/instanceGroups/"

  predicate OccursAt(s: string, sep: string, i: int) {
    0 <= i <= |s| - |sep| && s[i..i + |sep|] == sep
  }

  /** Position of the first occurrence of `sep` at or after `from`. */
  function IndexFrom(s: string, sep: string, from: nat): (r: Option<nat>)
    requires from <= |s|
    ensures r.None? ==> forall i :: from <= i ==> !OccursAt(s, sep, i)
    ensures r.Some? ==> from <= r.value && OccursAt(s, sep, r.value)
    ensures r.Some? ==> forall i :: from <= i < r.value ==> !OccursAt(s, sep, i)
    decreases |s| - from
  {
    if from + |sep| > |s| then None
    else if s[from..from + |sep|] == sep then Some(from)
    else if from == |s| then None
    else IndexFrom(s, sep, from + 1)
  }

  ghost predicate Contains(s: string, sep: string) {
    exists i :: OccursAt(s, sep, i)
  }

  /** strings.Split: the pieces between successive, non-overlapping occurrences
      of a non-empty separator, found from left to right. */
  function Split(s: string, sep: string): (r: seq<string>)
    requires sep != ""
    ensures |r| >= 1
    decreases |s|
  {
    var i := IndexFrom(s, sep, 0);
    if i.None? then [s] else [s[..i.value]] + Split(s[i.value + |sep|..], sep)
  }

  /** strings.Join, the inverse of Split. */
  function Join(parts: seq<string>, sep: string): string
    requires |parts| >= 1
  {
    if |parts| == 1 then parts[0] else parts[0] + sep + Join(parts[1..], sep)
  }

  lemma JoinPrepend(first: string, parts: seq<string>, sep: string)
    requires |parts| >= 1
    ensures Join([first] + parts, sep) == first + sep + Join(parts, sep)
  {
    assert ([first] + parts)[1..] == parts;
  }

  lemma SplitStep(s: string, sep: string, i: nat)
    requires sep != "" && IndexFrom(s, sep, 0) == Some(i)
    ensures Split(s, sep) == [s[..i]] + Split(s[i + |sep|..], sep)
  {
    hide IndexFrom, OccursAt;
  }

  /** Only a string without separator is left in one piece. */
  lemma SplitSingle(s: string, sep: string)
    requires sep != ""
    ensures !Contains(s, sep) ==> Split(s, sep) == [s]
    ensures |Split(s, sep)| == 1 ==> Split(s, sep) == [s]
  {
    var i := IndexFrom(s, sep, 0);
    hide IndexFrom;
    assert i.Some? ==> OccursAt(s, sep, i.value);
  }

  /** Nothing is lost by splitting. */
  lemma {:induction false} JoinSplit(s: string, sep: string)
    requires sep != ""
    ensures Join(Split(s, sep), sep) == s
    decreases |s|
  {
    var i := IndexFrom(s, sep, 0);
    if i.Some? {
      var first, rest := s[..i.value], s[i.value + |sep|..];
      SplitStep(s, sep, i.value);
      JoinSplit(rest, sep);
      JoinPrepend(first, Split(rest, sep), sep);
      Reassemble(s, sep, i.value);
    }
  }

  lemma Reassemble(s: string, sep: string, i: nat)
    requires OccursAt(s, sep, i)
    ensures s == s[..i] + sep + s[i + |sep|..]
  {
  }

  /** getNameFromURL: the part after the last slash. */
  function NameFromUrl(url: string): (r: Option<string>)
  {
    var parts := Split(url, "/");
    if |parts| < 2 then None else Some(parts[|parts| - 1])
  }

  /** GetZoneAndNameFromIGURL and GetZoneAndNameFromInstanceURL, which differ
      only in their separator. */
  function ZoneAndName(url: string, sep: string): (r: Option<(string, string)>)
    requires sep != ""
  {
    var parts := Split(url, sep);
    if |parts| != 2 then None
    else
      var zone := NameFromUrl(parts[0]);
      if zone.None? then None else Some((zone.value, parts[1]))
  }

  /** The link getIGsForCluster prints for a group name and its zone URL. */
  function GroupLink(zoneUrl: string, name: string): string {
    zoneUrl + IG_SEPARATOR + name
  }

  predicate SlashFree(s: string) {
    '/' !in s
  }

  lemma NoSlashNoSeparator(s: string, sep: string)
    requires SlashFree(s) && sep != "" && sep[0] == '/'
    ensures forall k :: !OccursAt(s, sep, k)
  {
    forall k ensures !OccursAt(s, sep, k) {
      assert 0 <= k <= |s| - |sep| ==> s[k..k + |sep|][0] == s[k];
    }
  }

  /** The text after the last slash of p/zone is zone. */
  lemma {:induction false} LastSegment(p: string, zone: string)
    requires SlashFree(zone)
    ensures NameFromUrl(p + "/" + zone) == Some(zone)
    decreases |p|
  {
    var url := p + "/" + zone;
    assert OccursAt(url, "/", |p|);
    var i := IndexFrom(url, "/", 0);
    assert i.Some? && i.value <= |p|;
    var rest := url[i.value + 1..];
    if i.value == |p| {
      assert rest == zone;
      NoSlashNoSeparator(zone, "/");
      assert Split(rest, "/") == [zone];
    } else {
      var p' := p[i.value + 1..];
      assert rest == p' + "/" + zone;
      LastSegment(p', zone);
    }
  }

  /** Two overlapping occurrences of the separator share exactly one slash. */
  lemma SeparatorOverlap(s: string, i: int, j: int)
    requires OccursAt(s, IG_SEPARATOR, i) && OccursAt(s, IG_SEPARATOR, j)
    requires i < j < i + |IG_SEPARATOR|
    ensures j == i + |IG_SEPARATOR| - 1
  {
    assert s[j] == s[j..j + |IG_SEPARATOR|][0] == '/';
    assert s[j] == s[i..i + |IG_SEPARATOR|][j - i] == IG_SEPARATOR[j - i];
  }

  /** No separator can start after its only proper place: the name has no slash. */
  lemma NothingAfter(head: string, name: string, i: int)
    requires SlashFree(name)
    requires OccursAt(head + IG_SEPARATOR + name, IG_SEPARATOR, i)
    ensures i <= |head|
  {
    var url := head + IG_SEPARATOR + name;
    var last := i + |IG_SEPARATOR| - 1;
    assert url[last] == url[i..i + |IG_SEPARATOR|][|IG_SEPARATOR| - 1] == '/';
  }

  /** A separator that starts before the proper place lies inside the zone URL
      or makes the zone the word instanceGroups. */
  lemma EarlierOccurrence(p: string, zone: string, name: string, i: int)
    requires SlashFree(zone) && SlashFree(name)
    requires var head := p + "/" + zone; i < |head| && OccursAt(GroupLink(head, name), IG_SEPARATOR, i)
    ensures Contains(p + "/" + zone, IG_SEPARATOR) || zone == "instanceGroups"
  {
    var head := p + "/" + zone;
    var url := GroupLink(head, name);
    var n := |IG_SEPARATOR|;
    if i + n <= |head| {
      assert url[i..i + n] == head[i..i + n];
      assert OccursAt(head, IG_SEPARATOR, i);
    } else {
      assert url[|head|..|head| + n] == IG_SEPARATOR;
      SeparatorOverlap(url, i, |head|);
      assert url == head + (IG_SEPARATOR + name);
      assert head[i..] == url[i..|head|];
      assert url[i..|head|] == url[i..i + n][..n - 1];
      assert IG_SEPARATOR[..n - 1] == "/instanceGroups";
      assert head[i] == '/';
      var z := |p| + 1;
      assert head[|p|] == '/';
      assert i == |p|;
      assert zone == head[z..] == head[i..][1..];
    }
  }

  lemma ZoneWordMakesSeparator(p: string, name: string)
    ensures OccursAt(GroupLink(p + "/" + "instanceGroups", name), IG_SEPARATOR, |p|)
  {
    var url := GroupLink(p + "/" + "instanceGroups", name);
    assert url == p + ("/" + "instanceGroups" + "/") + ("instanceGroups/" + name);
    assert "/" + "instanceGroups" + "/" == IG_SEPARATOR;
  }

  /** The printed link parses back to the zone and the group name exactly when
      the zone URL does not itself contain /instanceGroups/ and the zone is not
      called instanceGroups. */
  lemma GroupLinkRoundTrip(p: string, zone: string, name: string)
    requires SlashFree(zone) && SlashFree(name)
    ensures GroupLink(p + "/" + zone, name) == p + "/" + zone + "/instanceGroups/" + name
    ensures ZoneAndName(GroupLink(p + "/" + zone, name), IG_SEPARATOR) == Some((zone, name))
            <==> !Contains(p + "/" + zone, "/instanceGroups/") && zone != "instanceGroups"
  {
    hide IndexFrom, Split;
    var head := p + "/" + zone;
    var url := GroupLink(head, name);
    var n := |IG_SEPARATOR|;
    assert url[|head|..|head| + n] == IG_SEPARATOR;
    assert OccursAt(url, IG_SEPARATOR, |head|);
    forall k | OccursAt(head, IG_SEPARATOR, k) ensures OccursAt(url, IG_SEPARATOR, k) && k < |head| {
      assert url[k..k + n] == head[k..k + n];
    }
    var i := IndexFrom(url, IG_SEPARATOR, 0).value;
    NothingAfter(head, name, i);
    var parts := Split(url, IG_SEPARATOR);
    SplitStep(url, IG_SEPARATOR, i);
    if i < |head| {
      EarlierOccurrence(p, zone, name, i);
      assert |url[i + n..]| > |name|;
      SplitSingle(url[i + n..], IG_SEPARATOR);
    } else {
      assert url[..i] == head && url[i + n..] == name;
      NoSlashNoSeparator(name, IG_SEPARATOR);
      SplitSingle(name, IG_SEPARATOR);
      assert parts == [head, name];
      LastSegment(p, zone);
      if zone == "instanceGroups" {
        ZoneWordMakesSeparator(p, name);
      }
    }
  }
}
