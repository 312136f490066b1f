/** How load balancer names become GCP resource names, and exactly when two
    generated names collide. */
module Names {

  /** A node port: the non-negative part of Go's int64. */
  type Port = p: int | 0 <= p < 0x8000_0000_0000_0000

  /** What a resource is for within one load balancer. */
  datatype Role =
    | HealthCheck(port: Port)
    | BackendService(port: Port)
    | UrlMap
    | HttpProxy
    | HttpsProxy
    | HttpRule
    | HttpsRule
    | Firewall
    | SslCert

  const MCI_PREFIX := "mci1"
  const LB_NAME_DELIMITER := "--"
  const ALPHA_NUMERIC_CHAR := "0"
  const NAME_LEN_LIMIT := 62

  function Digit(d: int): (c: char)
    requires 0 <= d < 10
    ensures '0' <= c <= '9' && c as int - '0' as int == d
  {
    ('0' as int + d) as char
  }

  /** Decimal digits of a natural number, most significant first. */
  function Decimal(n: nat): (s: string)
    ensures s != [] && forall i :: 0 <= i < |s| ==> '0' <= s[i] <= '9'
  {
    if n < 10 then [Digit(n)] else Decimal(n / 10) + [Digit(n % 10)]
  }

  /** The number a digit string denotes. */
  function DecimalValue(s: string): (n: nat)
    requires forall i :: 0 <= i < |s| ==> '0' <= s[i] <= '9'
  {
    if s == [] then 0
    else 10 * DecimalValue(s[..|s| - 1]) + (s[|s| - 1] as int - '0' as int)
  }

  /** Printing a number and reading it back gives the number. */
  lemma {:induction false} DecimalRoundTrip(n: nat)
    ensures DecimalValue(Decimal(n)) == n
  {
    if n < 10 {
      assert Decimal(n)[..0] == [];
    } else {
      DecimalRoundTrip(n / 10);
      var s := Decimal(n);
      assert s[..|s| - 1] == Decimal(n / 10);
    }
  }

  function Power10(k: nat): nat {
    if k == 0 then 1 else 10 * Power10(k - 1)
  }

  lemma {:induction false} DecimalLength(n: nat, k: nat)
    requires k >= 1 && n < Power10(k)
    ensures |Decimal(n)| <= k
  {
    if n >= 10 {
      DecimalLength(n / 10, k - 1);
    }
  }

  function Tag(role: Role): (s: string)
  {
    match role
    case HealthCheck(port) => "hc-" + Decimal(port)
    case BackendService(port) => "be-" + Decimal(port)
    case UrlMap => "um"
    case HttpProxy => "tp"
    case HttpsProxy => "tps"
    case HttpRule => "fw"
    case HttpsRule => "fws"
    case Firewall => "fr"
    case SslCert => "ssl"
  }

  datatype Namer = Namer(prefix: string, lbName: string) {
    /** The name before the load balancer name is attached. */
    function Body(role: Role): string {
      prefix + "-" + Tag(role)
    }

    /** The full, untruncated key. */
    function Key(role: Role): string {
      Body(role) + LB_NAME_DELIMITER + lbName
    }

    function Name(role: Role): string {
      if lbName == "" then Body(role) else Truncate(Key(role))
    }
  }

  function Truncate(key: string): string {
    if |key| > NAME_LEN_LIMIT then key[..NAME_LEN_LIMIT] + ALPHA_NUMERIC_CHAR else key
  }

  function MciNamer(lbName: string): Namer {
    Namer(MCI_PREFIX, lbName)
  }

  /** No two dashes in a row, none at the end. */
  ghost predicate SingleDashes(s: string) {
    && s != [] && s[|s| - 1] != '-'
    && forall i :: 0 <= i < |s| - 1 ==> !(s[i] == '-' && s[i + 1] == '-')
  }

  /** The first double dash of a string ends its body, so a string has at most
      one such body. */
  lemma DelimiterIsPrefixFree(b: string, c: string, s: string)
    requires SingleDashes(b) && SingleDashes(c)
    requires b + LB_NAME_DELIMITER <= s && c + LB_NAME_DELIMITER <= s
    ensures b == c
  {
    var bs, cs := b + LB_NAME_DELIMITER, c + LB_NAME_DELIMITER;
    assert bs == s[..|bs|] && cs == s[..|cs|];
    assert bs[|b|] == '-' && bs[|b| + 1] == '-' && cs[|c|] == '-' && cs[|c| + 1] == '-';
    assert |b| == |c|;
    assert b == s[..|b|] == c;
  }

  lemma TagShape(role: Role)
    ensures SingleDashes(Tag(role)) && Tag(role)[0] != '-' && |Tag(role)| <= 22
  {
    if role.HealthCheck? || role.BackendService? {
      PortLength(role.port);
      var d := Decimal(role.port);
      var head := if role.HealthCheck? then "hc-" else "be-";
      assert Tag(role) == head + d;
    }
  }

  /** The body of every generated name is short and has single dashes only. */
  lemma BodyShape(n: Namer, role: Role)
    requires n.prefix == MCI_PREFIX
    ensures SingleDashes(n.Body(role))
    ensures |n.Body(role)| <= 27
  {
    hide Tag;
    TagShape(role);
    assert n.Body(role) == "mci1-" + Tag(role);
  }

  lemma PortLength(p: Port)
    ensures |Decimal(p)| <= 19
  {
    assert Power10(19) == 10000000000000000000 by {
      assert Power10(5) == 100000;
      assert Power10(10) == 10000000000;
      assert Power10(15) == 1000000000000000;
    }
    DecimalLength(p, 19);
  }

  /** Equal bodies come from the same role. */
  lemma BodyDeterminesRole(n: Namer, m: Namer, r: Role, q: Role)
    requires n.prefix == m.prefix == MCI_PREFIX
    requires n.Body(r) == m.Body(q)
    ensures r == q
  {
    var b := MCI_PREFIX + "-";
    assert Tag(r) == n.Body(r)[|b|..] == m.Body(q)[|b|..] == Tag(q);
    assert Tag(r)[..2] == Tag(q)[..2];
    if r.HealthCheck? || r.BackendService? {
      assert q.HealthCheck? || q.BackendService?;
      assert Decimal(r.port) == Tag(r)[3..] == Tag(q)[3..] == Decimal(q.port);
      DecimalRoundTrip(r.port);
      DecimalRoundTrip(q.port);
    }
  }

  /** The exact collision law. Two generated names are equal exactly when the
      roles (kind and port) are equal and the load balancer names are either
      equal or too long to tell apart: both keys exceed 62 characters and agree
      on the first 62. */
  lemma NameCollision(l1: string, l2: string, r1: Role, r2: Role)
    requires l1 != "" && l2 != ""
    ensures MciNamer(l1).Name(r1) == MciNamer(l2).Name(r2) <==>
            && r1 == r2
            && (|| l1 == l2
                || (var k1, k2 := MciNamer(l1).Key(r1), MciNamer(l2).Key(r2);
                    |k1| > NAME_LEN_LIMIT && |k2| > NAME_LEN_LIMIT && k1[..NAME_LEN_LIMIT] == k2[..NAME_LEN_LIMIT]))
  {
    var n1, n2 := MciNamer(l1), MciNamer(l2);
    var k1, k2 := n1.Key(r1), n2.Key(r2);
    var h1, h2 := n1.Body(r1) + LB_NAME_DELIMITER, n2.Body(r2) + LB_NAME_DELIMITER;
    BodyShape(n1, r1);
    BodyShape(n2, r2);
    assert k1 == h1 + l1 && k2 == h2 + l2;
    if n1.Name(r1) == n2.Name(r2) {
      var s := if |k1| > NAME_LEN_LIMIT then k1[..NAME_LEN_LIMIT] else k1;
      assert |n1.Name(r1)| == |n2.Name(r2)|;
      assert s == if |k2| > NAME_LEN_LIMIT then k2[..NAME_LEN_LIMIT] else k2 by {
        if |k1| > NAME_LEN_LIMIT {
          assert s == n1.Name(r1)[..NAME_LEN_LIMIT];
        }
      }
      assert h1 <= s && h2 <= s;
      DelimiterIsPrefixFree(n1.Body(r1), n2.Body(r2), s);
      BodyDeterminesRole(n1, n2, r1, r2);
      if |k1| <= NAME_LEN_LIMIT {
        assert l1 == k1[|h1|..] == k2[|h2|..] == l2;
      }
    }
  }

  predicate LabelChar(c: char) {
    'a' <= c <= 'z' || '0' <= c <= '9' || c == '-'
  }

  predicate LabelChars(s: string) {
    forall i :: 0 <= i < |s| ==> LabelChar(s[i])
  }

  /** A lower-case label in the sense of section 2.3.1 of RFC 1035, which is
      also the pattern GCP demands of a resource name. */
  predicate IsLabel(s: string) {
    && 1 <= |s| <= 63
    && 'a' <= s[0] <= 'z'
    && s[|s| - 1] != '-'
    && LabelChars(s)
  }

  /** How many characters of the load balancer name survive truncation. */
  function KeptChars(n: Namer, role: Role): int {
    var room := NAME_LEN_LIMIT - |n.Body(role)| - 2;
    if |n.lbName| <= room then |n.lbName| else room
  }

  /** A generated name always fits the 63 character limit, and it is a legal
      label exactly when the surviving part of the load balancer name uses legal
      characters and, if nothing was cut off, does not end in a dash. */
  lemma NameIsLabel(l: string, role: Role)
    requires l != ""
    ensures var n := MciNamer(l);
            && |n.Name(role)| <= 63
            && 0 <= KeptChars(n, role) <= |l|
            && (IsLabel(n.Name(role)) <==>
                && LabelChars(l[..KeptChars(n, role)])
                && (KeptChars(n, role) == |l| ==> l[|l| - 1] != '-'))
  {
    var n := MciNamer(l);
    var h := n.Body(role) + LB_NAME_DELIMITER;
    NameParts(l, role);
    HeadChars(n, role);
    hide Namer.Body, Namer.Name, KeptChars, IsLabel, LabelChars;
    var k := KeptChars(n, role);
    if k < |l| {
      LabelCut(h, l[..k]);
    } else {
      assert l[..k] == l;
      LabelWhole(h, l);
    }
  }

  lemma NameParts(l: string, role: Role)
    requires l != ""
    ensures var n := MciNamer(l);
            var h, k := n.Body(role) + LB_NAME_DELIMITER, KeptChars(n, role);
            && 0 <= k <= |l| && |h| + k <= NAME_LEN_LIMIT
            && n.Name(role) == if k < |l| then h + l[..k] + ALPHA_NUMERIC_CHAR else h + l
  {
    var n := MciNamer(l);
    BodyShape(n, role);
    hide Namer.Body;
    var h, k := n.Body(role) + LB_NAME_DELIMITER, KeptChars(n, role);
    if k < |l| {
      assert (h + l)[..NAME_LEN_LIMIT] == h + l[..k];
    }
  }

  lemma HeadChars(n: Namer, role: Role)
    requires n.prefix == MCI_PREFIX
    ensures var h := n.Body(role) + LB_NAME_DELIMITER;
            h[0] == 'm' && LabelChars(h)
  {
    BodyChars(n, role);
    hide Namer.Body;
  }

  lemma LabelCut(h: string, kept: string)
    requires |h| > 0 && 'a' <= h[0] <= 'z' && |h + kept| <= 62 && LabelChars(h)
    ensures IsLabel(h + kept + ALPHA_NUMERIC_CHAR) <==> LabelChars(kept)
  {
    var s := h + kept + ALPHA_NUMERIC_CHAR;
    assert s[0] == h[0] && s[|s| - 1] == '0';
    assert forall i :: 0 <= i < |kept| ==> s[|h| + i] == kept[i];
  }

  lemma LabelWhole(h: string, l: string)
    requires |h| > 0 && 'a' <= h[0] <= 'z' && |l| > 0 && |h + l| <= 62 && LabelChars(h)
    ensures IsLabel(h + l) <==> LabelChars(l) && l[|l| - 1] != '-'
  {
    var s := h + l;
    assert s[0] == h[0] && s[|s| - 1] == l[|l| - 1];
    assert forall i :: 0 <= i < |l| ==> s[|h| + i] == l[i];
  }

  lemma BodyChars(n: Namer, role: Role)
    requires n.prefix == MCI_PREFIX
    ensures forall i :: 0 <= i < |n.Body(role)| ==> LabelChar(n.Body(role)[i])
    ensures n.Body(role)[0] == 'm'
  {
    if role.HealthCheck? || role.BackendService? {
      var d := Decimal(role.port);
      var head := MCI_PREFIX + "-" + Tag(role)[..3];
      assert n.Body(role) == head + d;
      assert head == "mci1-hc-" || head == "mci1-be-";
    }
  }

  /** Within one load balancer every role has a name of its own. */
  lemma NameDeterminesRole(l: string, r: Role, q: Role)
    requires MciNamer(l).Name(r) == MciNamer(l).Name(q)
    ensures r == q
  {
    if l == "" {
      BodyDeterminesRole(MciNamer(l), MciNamer(l), r, q);
    } else {
      NameCollision(l, l, r, q);
    }
  }

  lemma TwoRuleNames(l: string)
    ensures MciNamer(l).Name(HttpRule) != MciNamer(l).Name(HttpsRule)
  {
    hide Namer.Name;
    if MciNamer(l).Name(HttpRule) == MciNamer(l).Name(HttpsRule) {
      NameDeterminesRole(l, HttpRule, HttpsRule);
      assert false;
    }
  }

  /** No resource of one load balancer has the name of a resource of the other. */
  ghost predicate NamesDiffer(n: Namer, m: Namer) {
    forall r: Role, q: Role :: n.Name(r) != m.Name(q)
  }

  /** Names that fit are never confused: different load balancer names of at
      most 33 characters share no resource name. */
  lemma ShortNamesDiffer(l1: string, l2: string)
    requires l1 != l2 && 0 < |l1| <= 33 && 0 < |l2| <= 33
    ensures NamesDiffer(MciNamer(l1), MciNamer(l2))
  {
    forall r: Role, q: Role ensures MciNamer(l1).Name(r) != MciNamer(l2).Name(q) {
      NameCollision(l1, l2, r, q);
      BodyShape(MciNamer(l1), r);
    }
  }

  /** The names, spelled out. A key of more than 62 characters is cut there and
      closed with a zero. */
  lemma NamesSpelled(l: string)
    requires l != ""
    ensures MciNamer(l).Name(UrlMap) == Cut("mci1-um--" + l)
    ensures MciNamer(l).Name(HttpProxy) == Cut("mci1-tp--" + l) && MciNamer(l).Name(HttpsProxy) == Cut("mci1-tps--" + l)
    ensures MciNamer(l).Name(HttpRule) == Cut("mci1-fw--" + l) && MciNamer(l).Name(HttpsRule) == Cut("mci1-fws--" + l)
    ensures MciNamer(l).Name(Firewall) == Cut("mci1-fr--" + l) && MciNamer(l).Name(SslCert) == Cut("mci1-ssl--" + l)
    ensures forall p: Port ::
              && MciNamer(l).Name(HealthCheck(p)) == Cut("mci1-hc-" + Decimal(p) + "--" + l)
              && MciNamer(l).Name(BackendService(p)) == Cut("mci1-be-" + Decimal(p) + "--" + l)
  {
    assert MCI_PREFIX + "-" + "um" + LB_NAME_DELIMITER == "mci1-um--";
    assert MCI_PREFIX + "-" + "tp" + LB_NAME_DELIMITER == "mci1-tp--";
    assert MCI_PREFIX + "-" + "tps" + LB_NAME_DELIMITER == "mci1-tps--";
    assert MCI_PREFIX + "-" + "fw" + LB_NAME_DELIMITER == "mci1-fw--";
    assert MCI_PREFIX + "-" + "fws" + LB_NAME_DELIMITER == "mci1-fws--";
    assert MCI_PREFIX + "-" + "fr" + LB_NAME_DELIMITER == "mci1-fr--";
    assert MCI_PREFIX + "-" + "ssl" + LB_NAME_DELIMITER == "mci1-ssl--";
    forall p: Port
      ensures MciNamer(l).Key(HealthCheck(p)) == "mci1-hc-" + Decimal(p) + "--" + l
      ensures MciNamer(l).Key(BackendService(p)) == "mci1-be-" + Decimal(p) + "--" + l
    {
      assert MCI_PREFIX + "-" + ("hc-" + Decimal(p)) == "mci1-hc-" + Decimal(p);
      assert MCI_PREFIX + "-" + ("be-" + Decimal(p)) == "mci1-be-" + Decimal(p);
    }
  }

  function Cut(key: string): string {
    if |key| <= 62 then key else key[..62] + "0"
  }
}
