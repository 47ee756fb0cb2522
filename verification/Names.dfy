/** Entry names, their byte order, and the collections the tools keep sorted by it. */
module Names {
  datatype Option<+T> = None | Some(value: T)

  datatype Result<+T, +E> = Ok(value: T) | Err(error: E)

  /** A path is the sequence of its components, outermost first. */
  type Path = seq<string>

  lemma PrefixIsSlice(f: Path, p: Path)
    ensures f <= p <==> |f| <= |p| && p[..|f|] == f
  {
  }

  lemma PrefixHead(f: Path, p: Path)
    requires f != [] && p != []
    ensures f <= p <==> f[0] == p[0] && f[1..] <= p[1..]
  {
    if f[0] == p[0] && f[1..] <= p[1..] {
      assert f == [f[0]] + f[1..] && p == [p[0]] + p[1..];
    }
  }

  ghost function ToSet<T(!new)>(s: seq<T>): (r: set<T>)
    ensures forall x :: x in r <==> exists i :: 0 <= i < |s| && s[i] == x
  {
    set x | x in s
  }

  /** No path of the sequence equals or leads to another. */
  ghost predicate Incomparable(ps: seq<Path>) {
    forall i, j :: 0 <= i < |ps| && 0 <= j < |ps| && i != j ==> !(ps[i] <= ps[j])
  }

  /** Strict lexicographic order.  UTF-8 preserves code point order, so this is the
      byte-wise order in which the tools sort names. */
  predicate Lt(a: string, b: string) {
    if b == [] then false
    else if a == [] then true
    else if a[0] != b[0] then a[0] < b[0]
    else Lt(a[1..], b[1..])
  }

  lemma LtIrreflexive(a: string)
    ensures !Lt(a, a)
  {
  }

  lemma {:induction false} LtTransitive(a: string, b: string, c: string)
    requires Lt(a, b) && Lt(b, c)
    ensures Lt(a, c)
  {
    if a != [] && a[0] == b[0] && b[0] == c[0] {
      LtTransitive(a[1..], b[1..], c[1..]);
    }
  }

  lemma {:induction false} LtTotal(a: string, b: string)
    ensures a == b || Lt(a, b) || Lt(b, a)
  {
    if a != [] && b != [] && a[0] == b[0] {
      LtTotal(a[1..], b[1..]);
      assert a == [a[0]] + a[1..] && b == [b[0]] + b[1..];
    }
  }

  lemma LtAsymmetric(a: string, b: string)
    ensures !(Lt(a, b) && Lt(b, a))
  {
    if Lt(a, b) && Lt(b, a) {
      LtTransitive(a, b, a);
      LtIrreflexive(a);
    }
  }

  /** One name is before another: a proper prefix of it, or smaller at the first difference. */
  ghost predicate Before(a: string, b: string) {
    || (|a| < |b| && b[..|a|] == a)
    || (exists i :: 0 <= i < |a| && i < |b| && a[..i] == b[..i] && a[i] < b[i])
  }

  /** The order by which everything is sorted is that of bytes. */
  lemma {:induction false} LtIsByteOrder(a: string, b: string)
    ensures Lt(a, b) <==>
      || (|a| < |b| && b[..|a|] == a)
      || (exists i :: 0 <= i < |a| && i < |b| && a[..i] == b[..i] && a[i] < b[i])
  {
    if a != [] && b != [] {
      var x, y := a[1..], b[1..];
      if a[0] == b[0] {
        LtIsByteOrder(x, y);
        if i :| 0 <= i < |x| && i < |y| && x[..i] == y[..i] && x[i] < y[i] {
          assert a[..i + 1] == [a[0]] + x[..i] && b[..i + 1] == [b[0]] + y[..i];
          assert a[i + 1] < b[i + 1];
        }
        if i :| 0 <= i < |a| && i < |b| && a[..i] == b[..i] && a[i] < b[i] {
          assert i > 0 && x[..i - 1] == a[..i][1..] && y[..i - 1] == b[..i][1..];
          assert x[i - 1] < y[i - 1];
        }
        if |a| < |b| && b[..|a|] == a { assert y[..|x|] == b[..|a|][1..] == x; }
        if |x| < |y| && y[..|x|] == x { assert b[..|a|] == [b[0]] + y[..|x|]; }
      } else {
        assert a[..0] == b[..0];
        assert |a| < |b| ==> b[..|a|][0] == b[0];
        assert forall i :: 0 < i < |a| && i < |b| ==> a[..i][0] == a[0] && b[..i][0] == b[0];
      }
    } else if b != [] {
      assert b[..|a|] == a;
    }
  }

  lemma LtIsBefore(a: string, b: string)
    ensures Lt(a, b) <==> Before(a, b)
  {
    LtIsByteOrder(a, b);
  }

  // ---------------------------------------------------------------- sorted sequences

  ghost predicate StrictlySorted(s: seq<string>) {
    forall i, j :: 0 <= i < j < |s| ==> Lt(s[i], s[j])
  }

  /** A strictly sorted sequence is determined by the set of its elements. */
  lemma {:induction false} SortedUnique(s: seq<string>, t: seq<string>)
    requires StrictlySorted(s) && StrictlySorted(t)
    requires forall k :: k in s <==> k in t
    ensures s == t
  {
    assert t != [] ==> t[0] in s;
    if s != [] {
      assert s[0] in t;
      var j :| 0 <= j < |t| && t[j] == s[0];
      assert t[0] in s;
      var i :| 0 <= i < |s| && s[i] == t[0];
      LtAsymmetric(s[0], t[0]);
      assert s[0] == t[0];
      forall k ensures k in s[1..] <==> k in t[1..] {
        LtIrreflexive(s[0]);
        assert k in s <==> k == s[0] || k in s[1..];
        assert k in t <==> k == t[0] || k in t[1..];
      }
      SortedUnique(s[1..], t[1..]);
      assert s == [s[0]] + s[1..] && t == [t[0]] + t[1..];
    }
  }

  predicate IsLeast(m: string, s: set<string>) {
    m in s && forall k | k in s :: k == m || Lt(m, k)
  }

  lemma {:induction false} LeastExists(s: set<string>)
    requires s != {}
    ensures exists m :: IsLeast(m, s)
  {
    var x :| x in s;
    if s == {x} {
      assert IsLeast(x, s);
    } else {
      LeastExists(s - {x});
      var m :| IsLeast(m, s - {x});
      LtTotal(x, m);
      if Lt(x, m) {
        forall k | k in s ensures k == x || Lt(x, k) {
          if k != x && k != m { LtTransitive(x, m, k); }
        }
        assert IsLeast(x, s);
      } else {
        assert IsLeast(m, s);
      }
    }
  }

  lemma LeastUnique(m: string, n: string, s: set<string>)
    requires IsLeast(m, s) && IsLeast(n, s)
    ensures m == n
  {
    LtAsymmetric(m, n);
  }

  function Least(s: set<string>): (m: string)
    requires s != {}
    ensures IsLeast(m, s)
  {
    LeastExists(s);
    assert forall m, n | IsLeast(m, s) && IsLeast(n, s) :: m == n by {
      forall m, n | IsLeast(m, s) && IsLeast(n, s) ensures m == n { LeastUnique(m, n, s); }
    }
    var m :| IsLeast(m, s); m
  }

  /** The elements of a finite set of names in the iteration order of a `BTreeMap`. */
  function InOrder(s: set<string>): (r: seq<string>)
    ensures StrictlySorted(r)
    ensures forall k :: k in r <==> k in s
  {
    if s == {} then []
    else
      var m := Least(s);
      [m] + InOrder(s - {m})
  }

  /** The map with the given keys and the values `f` gives them. */
  ghost function MapOf<K, V>(ks: set<K>, f: K --> V): (m: map<K, V>)
    requires forall k :: k in ks ==> f.requires(k)
    ensures m.Keys == ks
    ensures forall k :: k in ks ==> m[k] == f(k)
  {
    if ks == {} then map[]
    else
      var k :| k in ks;
      MapOf(ks - {k}, f)[k := f(k)]
  }

  // ---------------------------------------------------------------- sorted maps

  /** `BTreeMap::into_values`: the values in the order of their keys. */
  function ValuesInOrder<T>(m: map<string, T>): (r: seq<T>)
    ensures |r| == |InOrder(m.Keys)|
    ensures forall i :: 0 <= i < |r| ==> InOrder(m.Keys)[i] in m && r[i] == m[InOrder(m.Keys)[i]]
  {
    var ks := InOrder(m.Keys);
    assert forall i :: 0 <= i < |ks| ==> ks[i] in m;
    seq(|ks|, i requires 0 <= i < |ks| => m[ks[i]])
  }

  /** `s` lists the values of `m`, each once, where `name` recovers a value's key. */
  ghost predicate Lists<T>(s: seq<T>, name: T -> string, m: map<string, T>) {
    && (forall i :: 0 <= i < |s| ==> name(s[i]) in m && m[name(s[i])] == s[i])
    && (forall k :: k in m ==> m[k] in s && name(m[k]) == k)
    && (forall i, j :: 0 <= i < j < |s| ==> name(s[i]) != name(s[j]))
  }

  ghost predicate SortedBy<T>(s: seq<T>, name: T -> string) {
    forall i, j :: 0 <= i < j < |s| ==> Lt(name(s[i]), name(s[j]))
  }

  /** The one sequence that lists a map in name order is the map's `into_values`. */
  lemma SortedListing<T>(s: seq<T>, name: T -> string, m: map<string, T>)
    requires Lists(s, name, m) && SortedBy(s, name)
    ensures s == ValuesInOrder(m)
  {
    var ks := seq(|s|, i requires 0 <= i < |s| => name(s[i]));
    forall k ensures k in ks <==> k in InOrder(m.Keys) {
      if k in m {
        var i :| 0 <= i < |s| && s[i] == m[k];
        assert ks[i] == k;
      }
    }
    SortedUnique(ks, InOrder(m.Keys));
  }

  lemma ValuesInOrderLists<T>(name: T -> string, m: map<string, T>)
    requires forall k :: k in m ==> name(m[k]) == k
    ensures Lists(ValuesInOrder(m), name, m) && SortedBy(ValuesInOrder(m), name)
  {
    var ks := InOrder(m.Keys);
    var s := ValuesInOrder(m);
    forall k | k in m ensures m[k] in s {
      assert k in ks;
      var i :| 0 <= i < |ks| && ks[i] == k;
      assert s[i] == m[k];
    }
    forall i, j | 0 <= i < j < |s| ensures name(s[i]) != name(s[j]) {
      LtIrreflexive(ks[i]);
    }
  }

  /** No two different maps have the same values in order, once values carry their names. */
  lemma ValuesInOrderInjective<T>(name: T -> string, m: map<string, T>, n: map<string, T>)
    requires forall k :: k in m ==> name(m[k]) == k
    requires forall k :: k in n ==> name(n[k]) == k
    requires ValuesInOrder(m) == ValuesInOrder(n)
    ensures m == n
  {
    ValuesInOrderLists(name, m);
    ValuesInOrderLists(name, n);
    forall k ensures k in m <==> k in n {
    }
  }

  lemma ListsMore<T>(s: seq<T>, name: T -> string, m: map<string, T>, x: T)
    requires Lists(s, name, m) && name(x) !in m
    ensures Lists(s + [x], name, m[name(x) := x])
  {
    var s', m' := s + [x], m[name(x) := x];
    forall k | k in m' ensures m'[k] in s' && name(m'[k]) == k {
      assert s'[|s|] == x;
    }
  }

  // ---------------------------------------------------------------- sort_by

  function InsertBy<T>(x: T, s: seq<T>, name: T -> string): seq<T> {
    if s == [] || Lt(name(x), name(s[0])) then [x] + s
    else [s[0]] + InsertBy(x, s[1..], name)
  }

  /** `Vec::sort_by` on names: a stable sort. */
  function SortBy<T>(s: seq<T>, name: T -> string): seq<T> {
    if s == [] then [] else InsertBy(s[|s| - 1], SortBy(s[..|s| - 1], name), name)
  }

  lemma {:induction false} InsertByElements<T>(x: T, s: seq<T>, name: T -> string)
    ensures multiset(InsertBy(x, s, name)) == multiset(s) + multiset{x}
  {
    if s != [] && !Lt(name(x), name(s[0])) {
      InsertByElements(x, s[1..], name);
      assert s == [s[0]] + s[1..];
    }
  }

  lemma {:induction false} InsertBySorted<T>(x: T, s: seq<T>, name: T -> string)
    requires SortedBy(s, name)
    requires forall y :: y in s ==> name(y) != name(x)
    ensures SortedBy(InsertBy(x, s, name), name)
  {
    if s != [] {
      var r := InsertBy(x, s, name);
      if Lt(name(x), name(s[0])) {
        forall j | 0 < j < |s| ensures Lt(name(x), name(s[j])) {
          LtTransitive(name(x), name(s[0]), name(s[j]));
        }
      } else {
        LtTotal(name(x), name(s[0]));
        InsertBySorted(x, s[1..], name);
        InsertByElements(x, s[1..], name);
        var t := InsertBy(x, s[1..], name);
        forall j | 0 <= j < |t| ensures Lt(name(s[0]), name(t[j])) {
          assert t[j] in multiset(t);
          assert t[j] == x || t[j] in s[1..];
        }
      }
    }
  }

  lemma {:induction false} SortByElements<T>(s: seq<T>, name: T -> string)
    ensures multiset(SortBy(s, name)) == multiset(s)
  {
    if s != [] {
      SortByElements(s[..|s| - 1], name);
      InsertByElements(s[|s| - 1], SortBy(s[..|s| - 1], name), name);
      assert s == s[..|s| - 1] + [s[|s| - 1]];
    }
  }

  lemma {:induction false} SortBySorts<T>(s: seq<T>, name: T -> string)
    requires forall i, j :: 0 <= i < j < |s| ==> name(s[i]) != name(s[j])
    ensures SortedBy(SortBy(s, name), name)
  {
    if s != [] {
      var t := s[..|s| - 1];
      SortBySorts(t, name);
      SortByElements(t, name);
      forall y | y in SortBy(t, name) ensures name(y) != name(s[|s| - 1]) {
        assert y in multiset(SortBy(t, name));
        assert y in t;
      }
      InsertBySorted(s[|s| - 1], SortBy(t, name), name);
    }
  }

  lemma SortByMembers<T>(s: seq<T>, name: T -> string, x: T)
    ensures x in SortBy(s, name) <==> x in s
  {
    SortByElements(s, name);
    assert x in SortBy(s, name) <==> x in multiset(SortBy(s, name));
    assert x in s <==> x in multiset(s);
  }

  lemma SortedIsDistinct<T>(s: seq<T>, name: T -> string)
    requires SortedBy(s, name)
    ensures forall i, j :: 0 <= i < j < |s| ==> name(s[i]) != name(s[j])
  {
    forall i, j | 0 <= i < j < |s| ensures name(s[i]) != name(s[j]) {
      LtIrreflexive(name(s[i]));
    }
  }

  /** Sorting whatever lists a map yields the map's values in order: the order in which
      the entries were collected is forgotten. */
  lemma SortByForgetsOrder<T>(s: seq<T>, name: T -> string, m: map<string, T>)
    requires Lists(s, name, m)
    ensures SortBy(s, name) == ValuesInOrder(m)
  {
    var r := SortBy(s, name);
    SortBySorts(s, name);
    SortedIsDistinct(r, name);
    forall k | k in m ensures m[k] in r {
      SortByMembers(s, name, m[k]);
    }
    forall i | 0 <= i < |r| ensures name(r[i]) in m && m[name(r[i])] == r[i] {
      SortByMembers(s, name, r[i]);
    }
    SortedListing(r, name, m);
  }
}
