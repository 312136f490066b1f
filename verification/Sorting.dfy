/** sort.Strings, and the ways sorting interacts with permutation and removal. */
module Sorting {
  import opened Prelude

  /** Lexicographic order on strings. */
  predicate Leq(a: string, b: string) {
    a == [] || (b != [] && (a[0] < b[0] || (a[0] == b[0] && Leq(a[1..], b[1..]))))
  }

  lemma LeqTotal(a: string, b: string)
    ensures Leq(a, b) || Leq(b, a)
  {
  }

  lemma LeqAntisymmetric(a: string, b: string)
    requires Leq(a, b) && Leq(b, a)
    ensures a == b
  {
    if a != [] && b != [] {
      LeqAntisymmetric(a[1..], b[1..]);
      assert a == [a[0]] + a[1..] && b == [b[0]] + b[1..];
    }
  }

  lemma LeqTransitive(a: string, b: string, c: string)
    requires Leq(a, b) && Leq(b, c)
    ensures Leq(a, c)
  {
  }

  ghost predicate Sorted(s: seq<string>) {
    forall i, j :: 0 <= i < j < |s| ==> Leq(s[i], s[j])
  }

  function Insert(x: string, s: seq<string>): (r: seq<string>)
    ensures multiset(r) == multiset(s) + multiset{x}
  {
    if s == [] then [x]
    else if Leq(x, s[0]) then [x] + s
    else
      assert s == [s[0]] + s[1..];
      [s[0]] + Insert(x, s[1..])
  }

  lemma InsertKeepsSorted(x: string, s: seq<string>)
    requires Sorted(s)
    ensures Sorted(Insert(x, s))
  {
    if s != [] {
      var r := Insert(x, s);
      if Leq(x, s[0]) {
        forall j | 0 <= j < |s| ensures Leq(x, s[j]) {
          if j > 0 { LeqTransitive(x, s[0], s[j]); }
        }
      } else {
        LeqTotal(x, s[0]);
        InsertKeepsSorted(x, s[1..]);
        forall j | 0 < j < |r| ensures Leq(s[0], r[j]) {
          assert r[j] in multiset(Insert(x, s[1..]));
          assert r[j] == x || r[j] in s[1..];
        }
      }
    }
  }

  function Sort(s: seq<string>): (r: seq<string>)
    ensures multiset(r) == multiset(s)
  {
    if s == [] then []
    else
      assert s == [s[0]] + s[1..];
      Insert(s[0], Sort(s[1..]))
  }

  lemma SortSorts(s: seq<string>)
    ensures Sorted(Sort(s))
  {
    if s != [] {
      SortSorts(s[1..]);
      InsertKeepsSorted(s[0], Sort(s[1..]));
    }
  }

  lemma SortedHeadsAgree(a: seq<string>, b: seq<string>)
    requires a != [] && b != [] && Sorted(a) && Sorted(b)
    requires a[0] in b && b[0] in a
    ensures a[0] == b[0]
  {
    if a[0] != b[0] {
      assert Leq(a[0], b[0]) && Leq(b[0], a[0]);
      LeqAntisymmetric(a[0], b[0]);
    }
  }

  lemma TailElements(a: seq<string>)
    requires a != []
    ensures multiset(a[1..]) == multiset(a) - multiset{a[0]}
  {
    assert a == [a[0]] + a[1..];
  }

  /** A sorted sequence is determined by its elements. */
  lemma {:induction false} SortedUnique(a: seq<string>, b: seq<string>)
    requires Sorted(a) && Sorted(b) && multiset(a) == multiset(b)
    ensures a == b
  {
    assert |a| == |multiset(a)| == |multiset(b)| == |b|;
    if a != [] {
      assert a[0] in multiset(b) && b[0] in multiset(a);
      SortedHeadsAgree(a, b);
      TailElements(a);
      TailElements(b);
      SortedUnique(a[1..], b[1..]);
      assert a == [a[0]] + a[1..] && b == [b[0]] + b[1..];
    }
  }

  lemma SortElements(s: seq<string>)
    ensures Elements(Sort(s)) == Elements(s)
  {
    assert forall x :: x in s <==> x in multiset(s);
    assert forall x :: x in Sort(s) <==> x in multiset(Sort(s));
  }

  /** Sorting forgets the order of its input. */
  lemma SortForgetsOrder(a: seq<string>, b: seq<string>)
    requires multiset(a) == multiset(b)
    ensures Sort(a) == Sort(b)
  {
    SortSorts(a);
    SortSorts(b);
    SortedUnique(Sort(a), Sort(b));
  }

  /** The loop that drops every element of `s` whose key is marked in a removal
      map; what survives keeps its order. */
  function Without<T>(s: seq<T>, key: T -> string, drop: set<string>): (r: seq<T>)
    ensures forall x :: x in r ==> x in s && key(x) !in drop
    ensures forall x :: x in s && key(x) !in drop ==> x in r
    ensures |r| <= |s|
  {
    if s == [] then []
    else if key(s[|s| - 1]) in drop then Without(s[..|s| - 1], key, drop)
    else Without(s[..|s| - 1], key, drop) + [s[|s| - 1]]
  }

  /** The positions of the unmarked elements, in order. */
  function Unmarks<T>(s: seq<T>, key: T -> string, drop: set<string>): (at: seq<nat>)
    ensures forall i :: 0 <= i < |at| ==> at[i] < |s|
    ensures forall i, j :: 0 <= i < j < |at| ==> at[i] < at[j]
    ensures forall k :: 0 <= k < |s| ==> (k in at <==> key(s[k]) !in drop)
  {
    if s == [] then []
    else if key(s[|s| - 1]) in drop then Unmarks(s[..|s| - 1], key, drop)
    else Unmarks(s[..|s| - 1], key, drop) + [|s| - 1]
  }

  /** `r` are the elements of `s` at these positions. */
  ghost predicate Picks<T>(s: seq<T>, at: seq<nat>, r: seq<T>) {
    |r| == |at| && forall i :: 0 <= i < |at| ==> at[i] < |s| && r[i] == s[at[i]]
  }

  lemma PicksMore<T>(s: seq<T>, at: seq<nat>, r: seq<T>)
    requires s != [] && Picks(s[..|s| - 1], at, r)
    ensures Picks(s, at, r) && Picks(s, at + [|s| - 1], r + [s[|s| - 1]])
  {
  }

  /** Exactly the unmarked elements survive, in their order. */
  lemma {:induction false} WithoutKeepsOrder<T>(s: seq<T>, key: T -> string, drop: set<string>)
    ensures Picks(s, Unmarks(s, key, drop), Without(s, key, drop))
  {
    if s != [] {
      var front := s[..|s| - 1];
      WithoutKeepsOrder(front, key, drop);
      PicksMore(s, Unmarks(front, key, drop), Without(front, key, drop));
      hide Picks;
    }
  }

  function Self(s: string): string { s }

  /** The loop that marks what is to be removed. */
  method Marked(strs: seq<string>) returns (marks: map<string, bool>)
    ensures marks.Keys == Elements(strs)
  {
    marks := map[];
    for i := 0 to |strs|
      invariant forall x :: x in marks <==> x in strs[..i]
    {
      marks := marks[strs[i] := true];
    }
  }

  /** The loop that keeps what is not marked. */
  method Unmarked<T>(s: seq<T>, key: T -> string, marks: map<string, bool>) returns (r: seq<T>)
    ensures r == Without(s, key, marks.Keys)
  {
    r := [];
    for i := 0 to |s|
      invariant r == Without(s[..i], key, marks.Keys)
    {
      assert s[..i + 1][..i] == s[..i];
      if key(s[i]) !in marks {
        r := r + [s[i]];
      }
    }
    assert s[..|s|] == s;
  }

  /** Removing twice is removing the union once. */
  lemma {:induction false} WithoutTwice<T>(s: seq<T>, key: T -> string, a: set<string>, b: set<string>)
    ensures Without(Without(s, key, a), key, b) == Without(s, key, a + b)
  {
    if s != [] {
      var front, last := s[..|s| - 1], s[|s| - 1];
      WithoutTwice(front, key, a, b);
      if key(last) !in a {
        var w := Without(front, key, a) + [last];
        assert w[..|w| - 1] == Without(front, key, a);
      }
    }
  }

  lemma {:induction false} WithoutNothing<T>(s: seq<T>, key: T -> string, drop: set<string>)
    requires forall x :: x in s ==> key(x) !in drop
    ensures Without(s, key, drop) == s
  {
    if s != [] {
      assert forall x :: x in s[..|s| - 1] ==> x in s;
      WithoutNothing(s[..|s| - 1], key, drop);
      assert s == s[..|s| - 1] + [s[|s| - 1]];
    }
  }

  lemma {:induction false} WithoutEverything<T>(s: seq<T>, key: T -> string, drop: set<string>)
    requires forall x :: x in s ==> key(x) in drop
    ensures Without(s, key, drop) == []
  {
    if s != [] {
      WithoutEverything(s[..|s| - 1], key, drop);
    }
  }

  lemma {:induction false} WithoutConcat<T>(s: seq<T>, t: seq<T>, key: T -> string, drop: set<string>)
    ensures Without(s + t, key, drop) == Without(s, key, drop) + Without(t, key, drop)
  {
    if t == [] {
      assert s + t == s;
    } else {
      assert (s + t)[..|s + t| - 1] == s + t[..|t| - 1];
      WithoutConcat(s, t[..|t| - 1], key, drop);
    }
  }

  lemma {:induction false} WithoutCount<T>(s: seq<T>, key: T -> string, drop: set<string>, x: T)
    ensures multiset(Without(s, key, drop))[x] == if key(x) in drop then 0 else multiset(s)[x]
  {
    if s != [] {
      assert s == s[..|s| - 1] + [s[|s| - 1]];
      WithoutCount(s[..|s| - 1], key, drop, x);
    }
  }

  lemma {:induction false} WithoutKeepsSorted(s: seq<string>, drop: set<string>)
    requires Sorted(s)
    ensures Sorted(Without(s, Self, drop))
  {
    if s != [] {
      var front, last := s[..|s| - 1], s[|s| - 1];
      WithoutKeepsSorted(front, drop);
      var r := Without(front, Self, drop);
      forall i | 0 <= i < |r| ensures Leq(r[i], last) {
        assert r[i] in front;
      }
    }
  }

  /** Filtering a sorted list and sorting a filtered list are the same. */
  lemma SortWithout(s: seq<string>, drop: set<string>)
    ensures Without(Sort(s), Self, drop) == Sort(Without(s, Self, drop))
  {
    SortSorts(s);
    WithoutKeepsSorted(Sort(s), drop);
    SortSorts(Without(s, Self, drop));
    forall x ensures multiset(Without(Sort(s), Self, drop))[x] == multiset(Without(s, Self, drop))[x] {
      WithoutCount(Sort(s), Self, drop, x);
      WithoutCount(s, Self, drop, x);
    }
    SortedUnique(Without(Sort(s), Self, drop), Sort(Without(s, Self, drop)));
  }

  /** The order is that of the first character that differs; a prefix comes first. */
  lemma {:induction false} LeqIsLexicographic(a: string, b: string)
    ensures Leq(a, b) <==> a <= b || exists i :: 0 <= i < |a| && i < |b| && a[..i] == b[..i] && a[i] < b[i]
  {
    if a != [] && b != [] && a[0] == b[0] {
      LeqIsLexicographic(a[1..], b[1..]);
      if a[1..] <= b[1..] {
        assert a == [a[0]] + a[1..] && b == [b[0]] + b[1..];
      }
      if i :| 0 <= i < |a[1..]| && i < |b[1..]| && a[1..][..i] == b[1..][..i] && a[1..][i] < b[1..][i] {
        assert a[..i + 1] == [a[0]] + a[1..][..i] && b[..i + 1] == [b[0]] + b[1..][..i];
        assert a[i + 1] < b[i + 1];
      }
      if i :| 0 <= i < |a| && i < |b| && a[..i] == b[..i] && a[i] < b[i] {
        assert i > 0 && a[1..][..i - 1] == a[..i][1..] && b[1..][..i - 1] == b[..i][1..];
        assert a[1..][i - 1] < b[1..][i - 1];
      }
    } else if a != [] && b != [] && a[0] < b[0] {
      assert a[..0] == b[..0];
    }
  }
}
