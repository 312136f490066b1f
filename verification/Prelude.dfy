/** Vocabulary shared by every module: optional values, the error values the
    Go code can tell apart, and ways to compare two snapshots of a map. */
module Prelude {

  datatype Option<+T> = None | Some(value: T)

  /** The Go code only ever asks of an error whether it is nil or an HTTP 404.
      `InUse` is a refusal to delete a referenced resource and is otherwise an
      ordinary error, as is every error built with fmt.Errorf or multierror. */
  datatype Err = Nil | NotFound | InUse | Other

  /** multierror.Append: whatever was collected, the result is an error that is
      not itself a googleapi error. */
  function Append(acc: Err, e: Err): (r: Err)
  {
    if e == Nil then acc else Other
  }

  /** Everything in `m` is still in `m'`, unchanged. */
  ghost predicate Extends<K, V>(m: map<K, V>, m': map<K, V>) {
    forall k :: k in m ==> k in m' && m'[k] == m[k]
  }

  /** `m` and `m'` can differ only at keys in `names`. */
  ghost predicate SameOutside<K, V>(m: map<K, V>, m': map<K, V>, names: set<K>) {
    m - names == m' - names
  }

  /** `m` and `m'` have the same at `k`, if anything. */
  ghost predicate SameAt<K, V>(m: map<K, V>, m': map<K, V>, k: K) {
    (k in m <==> k in m') && (k in m ==> m'[k] == m[k])
  }

  /** The elements of `s`, each counted once. */
  ghost predicate NoDuplicates<T>(s: seq<T>) {
    forall i, j :: 0 <= i < j < |s| ==> s[i] != s[j]
  }

  /** `s` lists the elements of `domain`, each exactly once: one possible
      order in which Go may iterate over a map with those keys. */
  ghost predicate Enumerates<T>(s: seq<T>, domain: set<T>) {
    NoDuplicates(s) && (forall x :: x in s ==> x in domain) && (forall x :: x in domain ==> x in s)
  }

  lemma EnumeratesSize<T>(s: seq<T>, domain: set<T>)
    requires Enumerates(s, domain)
    ensures |s| == |domain|
  {
    if s != [] {
      var last := s[|s| - 1];
      var front := s[..|s| - 1];
      assert forall x :: x in s <==> x in front || x == last;
      EnumeratesSize(front, domain - {last});
    } else {
      assert domain == {};
    }
  }

  /** Two enumerations of one set are permutations of each other. */
  lemma EnumerationsPermute<T>(s: seq<T>, t: seq<T>, domain: set<T>)
    requires Enumerates(s, domain) && Enumerates(t, domain)
    ensures multiset(s) == multiset(t)
  {
    forall x ensures multiset(s)[x] == multiset(t)[x] {
      CountOnce(s, x);
      CountOnce(t, x);
    }
  }

  lemma CountOnce<T>(s: seq<T>, x: T)
    requires NoDuplicates(s)
    ensures multiset(s)[x] == if x in s then 1 else 0
  {
    if s != [] {
      var front := s[..|s| - 1];
      assert s == front + [s[|s| - 1]];
      CountOnce(front, x);
    }
  }

  /** The order in which a Go `range` visits the keys of a map: any order. */
  method RangeOrder<T(==)>(domain: set<T>) returns (order: seq<T>)
    ensures Enumerates(order, domain)
    ensures |order| == |domain|
  {
    order := [];
    var rest := domain;
    while rest != {}
      invariant rest <= domain && Enumerates(order, domain - rest)
      decreases rest
    {
      var x :| x in rest;
      rest := rest - {x};
      order := order + [x];
    }
    EnumeratesSize(order, domain);
  }

  /** Some enumeration of a finite set. */
  ghost function Listing<T>(s: set<T>): (r: seq<T>)
    ensures Enumerates(r, s)
  {
    if s == {} then [] else
    var x :| x in s;
    [x] + Listing(s - {x})
  }

  /** Enumerations of disjoint parts, one after the other, enumerate the whole. */
  lemma EnumeratesConcat<T>(s: seq<T>, t: seq<T>, a: set<T>, b: set<T>)
    requires Enumerates(s, a) && Enumerates(t, b) && a !! b
    ensures Enumerates(s + t, a + b)
  {
    forall i, j | 0 <= i < j < |s + t| ensures (s + t)[i] != (s + t)[j] {
      assert i < |s| <= j ==> (s + t)[i] in a && (s + t)[j] in b;
    }
  }

  function Elements(s: seq<string>): (r: set<string>)
    ensures forall x :: x in r <==> x in s
  {
    set x | x in s
  }

  /** `f` applied to every element. */
  function Mapped<T, U>(f: T -> U, s: seq<T>): (r: seq<U>)
    ensures |r| == |s| && forall i :: 0 <= i < |s| ==> r[i] == f(s[i])
  {
    if s == [] then [] else Mapped(f, s[..|s| - 1]) + [f(s[|s| - 1])]
  }

  /** `f` applied to every element, the results one after the other. */
  function FlatMapped<T, U>(f: T -> seq<U>, s: seq<T>): seq<U> {
    if s == [] then [] else FlatMapped(f, s[..|s| - 1]) + f(s[|s| - 1])
  }

  lemma {:induction false} FlatMappedConcat<T, U>(f: T -> seq<U>, s: seq<T>, t: seq<T>)
    ensures FlatMapped(f, s + t) == FlatMapped(f, s) + FlatMapped(f, t)
  {
    if t == [] {
      assert s + t == s;
    } else {
      assert (s + t)[..|s + t| - 1] == s + t[..|t| - 1];
      FlatMappedConcat(f, s, t[..|t| - 1]);
    }
  }

  lemma FlatMappedOne<T, U>(f: T -> seq<U>, x: T)
    ensures FlatMapped(f, [x]) == f(x)
  {
    assert [x][..0] == [];
  }

  lemma FlatMappedAt<T, U>(f: T -> seq<U>, a: seq<T>, x: T, b: seq<T>)
    ensures multiset(FlatMapped(f, a + [x] + b)) == multiset(FlatMapped(f, a + b)) + multiset(f(x))
  {
    FlatMappedConcat(f, a + [x], b);
    FlatMappedConcat(f, a, [x]);
    FlatMappedConcat(f, a, b);
    FlatMappedOne(f, x);
  }

  /** Visiting in another order yields the same elements. */
  lemma {:induction false} FlatMappedPermute<T, U>(f: T -> seq<U>, s: seq<T>, t: seq<T>)
    requires multiset(s) == multiset(t)
    ensures multiset(FlatMapped(f, s)) == multiset(FlatMapped(f, t))
    decreases |s|
  {
    assert |s| == |multiset(s)| == |multiset(t)| == |t|;
    if s != [] {
      var n := |s| - 1;
      assert s[n] in multiset(t);
      var k :| 0 <= k < |t| && t[k] == s[n];
      var rest := t[..k] + t[k + 1..];
      assert s == s[..n] + [s[n]];
      assert t == t[..k] + [t[k]] + t[k + 1..];
      assert multiset(s[..n]) == multiset(s) - multiset{s[n]} == multiset(rest);
      FlatMappedPermute(f, s[..n], rest);
      FlatMappedAt(f, t[..k], t[k], t[k + 1..]);
    }
  }

  lemma {:induction false} MappedIsFlat<T, U>(f: T -> U, s: seq<T>)
    ensures Mapped(f, s) == FlatMapped(x => [f(x)], s)
  {
    if s != [] {
      MappedIsFlat(f, s[..|s| - 1]);
    }
  }

  lemma MappedPermute<T, U>(f: T -> U, s: seq<T>, t: seq<T>)
    requires multiset(s) == multiset(t)
    ensures multiset(Mapped(f, s)) == multiset(Mapped(f, t))
  {
    MappedIsFlat(f, s);
    MappedIsFlat(f, t);
    FlatMappedPermute(x => [f(x)], s, t);
  }

  lemma {:induction false} FlatMappedSame<T, U>(f: T -> seq<U>, g: T -> seq<U>, s: seq<T>)
    requires forall x :: x in s ==> f(x) == g(x)
    ensures FlatMapped(f, s) == FlatMapped(g, s)
  {
    if s != [] {
      FlatMappedSame(f, g, s[..|s| - 1]);
    }
  }

  lemma MappedSame<T, U>(f: T -> U, g: T -> U, s: seq<T>)
    requires forall x :: x in s ==> f(x) == g(x)
    ensures Mapped(f, s) == Mapped(g, s)
  {
  }
}
