/** strings.Compare order and sorting. The source sorts with unstable library sorts; the lemma
    `SortedUnique` shows that, when the keys are distinct, every sort gives the same result. */
module Ordering {

  /** Code-point order, which for valid UTF-8 is the byte order of strings.Compare. */
  predicate Leq(a: string, b: string) {
    a == "" || (b != "" && (a[0] < b[0] || (a[0] == b[0] && Leq(a[1..], b[1..]))))
  }

  predicate Less(a: string, b: string) { Leq(a, b) && a != b }

  lemma {:induction a} LeqReflexive(a: string)
    ensures Leq(a, a)
  {
  }

  lemma {:induction false} LeqTotal(a: string, b: string)
    ensures Leq(a, b) || Leq(b, a)
  {
    if a != "" && b != "" && a[0] == b[0] { LeqTotal(a[1..], b[1..]); }
  }

  lemma {:induction false} LeqAntisymmetric(a: string, b: string)
    requires Leq(a, b) && Leq(b, a)
    ensures a == b
  {
    if a != "" && b != "" {
      LeqAntisymmetric(a[1..], b[1..]);
      assert a == [a[0]] + a[1..] && b == [b[0]] + b[1..];
    }
  }

  lemma {:induction false} LeqTransitive(a: string, b: string, c: string)
    requires Leq(a, b) && Leq(b, c)
    ensures Leq(a, c)
  {
    if a != "" && a[0] == b[0] && b[0] == c[0] { LeqTransitive(a[1..], b[1..], c[1..]); }
  }

  ghost predicate SortedBy<T(!new)>(key: T -> string, s: seq<T>) {
    forall i, j :: 0 <= i < j < |s| ==> Leq(key(s[i]), key(s[j]))
  }

  ghost predicate DistinctBy<T(!new)>(key: T -> string, s: seq<T>) {
    forall i, j :: 0 <= i < j < |s| ==> key(s[i]) != key(s[j])
  }

  function Insert<T>(key: T -> string, x: T, s: seq<T>): seq<T> {
    if s == [] || Leq(key(x), key(s[0])) then [x] + s else [s[0]] + Insert(key, x, s[1..])
  }

  /** slices.SortFunc(s, compare keys). */
  function SortBy<T>(key: T -> string, s: seq<T>): seq<T> {
    if s == [] then [] else Insert(key, s[0], SortBy(key, s[1..]))
  }

  lemma {:induction false} InsertProperties<T(!new)>(key: T -> string, x: T, s: seq<T>)
    requires SortedBy(key, s)
    ensures SortedBy(key, Insert(key, x, s))
    ensures multiset(Insert(key, x, s)) == multiset(s) + multiset{x}
  {
    if s != [] {
      assert s == [s[0]] + s[1..];
      if Leq(key(x), key(s[0])) {
        forall j | 0 <= j < |s| ensures Leq(key(x), key(s[j])) {
          if j > 0 { LeqTransitive(key(x), key(s[0]), key(s[j])); }
        }
      } else {
        LeqTotal(key(x), key(s[0]));
        var r := Insert(key, x, s[1..]);
        InsertProperties(key, x, s[1..]);
        forall y | y in r ensures Leq(key(s[0]), key(y)) {
          assert y in multiset(r);
          if y != x { assert y in multiset(s[1..]); assert y in s[1..]; }
        }
      }
    }
  }

  lemma {:induction false} SortProperties<T(!new)>(key: T -> string, s: seq<T>)
    ensures SortedBy(key, SortBy(key, s))
    ensures multiset(SortBy(key, s)) == multiset(s)
  {
    if s != [] {
      SortProperties(key, s[1..]);
      InsertProperties(key, s[0], SortBy(key, s[1..]));
      assert s == [s[0]] + s[1..];
    }
  }

  lemma DistinctMultiset<T(!new)>(key: T -> string, s: seq<T>, t: seq<T>)
    requires multiset(s) == multiset(t) && DistinctBy(key, s)
    ensures DistinctBy(key, t)
  {
    forall i, j | 0 <= i < j < |t| ensures key(t[i]) != key(t[j]) {
      if key(t[i]) == key(t[j]) {
        TwoOccurrences(t, i, j);
        assert t[i] in multiset(s) && t[j] in multiset(s);
        var a :| 0 <= a < |s| && s[a] == t[i];
        var b :| 0 <= b < |s| && s[b] == t[j];
        if a == b {
          DistinctOccursOnce(key, s, a);
          assert false;
        } else {
          assert false;
        }
      }
    }
  }

  lemma TwoOccurrences<T>(t: seq<T>, i: int, j: int)
    requires 0 <= i < j < |t|
    ensures t[i] == t[j] ==> multiset(t)[t[i]] >= 2
  {
    assert t == t[..i] + [t[i]] + t[i + 1..j] + [t[j]] + t[j + 1..];
  }

  lemma DistinctOccursOnce<T(!new)>(key: T -> string, s: seq<T>, a: int)
    requires 0 <= a < |s| && DistinctBy(key, s)
    ensures multiset(s)[s[a]] == 1
  {
    assert s == s[..a] + [s[a]] + s[a + 1..];
    forall x | x in s[..a] || x in s[a + 1..] ensures x != s[a] {
      if x in s[..a] { var k :| 0 <= k < a && s[k] == x; }
      else { var k :| a < k < |s| && s[k] == x; }
    }
  }

  ghost predicate StrictlySortedBy<T(!new)>(key: T -> string, s: seq<T>) {
    forall i, j :: 0 <= i < j < |s| ==> Less(key(s[i]), key(s[j]))
  }

  /** The head of a strictly sorted sequence is below every element. */
  lemma HeadIsLeast<T(!new)>(key: T -> string, s: seq<T>, x: T)
    requires StrictlySortedBy(key, s) && x in s
    ensures Leq(key(s[0]), key(x)) && (key(x) == key(s[0]) ==> x == s[0])
  {
    var i :| 0 <= i < |s| && s[i] == x;
    if i == 0 { LeqReflexive(key(x)); } else { assert Less(key(s[0]), key(s[i])); }
  }

  lemma TailElements<T(!new)>(key: T -> string, s: seq<T>, x: T)
    requires StrictlySortedBy(key, s) && s != []
    ensures x in s[1..] <==> x in s && x != s[0]
  {
    if x in s[1..] {
      var i :| 0 <= i < |s| - 1 && s[1..][i] == x;
      assert Less(key(s[0]), key(s[i + 1]));
    }
  }

  /** Being strictly sorted and having the same elements determines a sequence. */
  lemma {:induction false} SortedUnique<T(!new)>(key: T -> string, s: seq<T>, t: seq<T>)
    requires StrictlySortedBy(key, s) && StrictlySortedBy(key, t)
    requires forall x :: x in s <==> x in t
    ensures s == t
  {
    if s != [] { assert s[0] in t; }
    if t != [] { assert t[0] in s; }
    if s != [] {
      HeadIsLeast(key, s, t[0]);
      HeadIsLeast(key, t, s[0]);
      LeqAntisymmetric(key(s[0]), key(t[0]));
      forall x ensures x in s[1..] <==> x in t[1..] {
        TailElements(key, s, x);
        TailElements(key, t, x);
      }
      SortedUnique(key, s[1..], t[1..]);
      assert s == [s[0]] + s[1..] && t == [t[0]] + t[1..];
    }
  }

  /** Permuting the input does not change the sorted output when keys are distinct. */
  lemma SortIgnoresOrder<T(!new)>(key: T -> string, s: seq<T>, t: seq<T>)
    requires multiset(s) == multiset(t) && DistinctBy(key, s)
    ensures SortBy(key, s) == SortBy(key, t)
  {
    SortProperties(key, s);
    SortProperties(key, t);
    DistinctMultiset(key, s, SortBy(key, s));
    DistinctMultiset(key, s, SortBy(key, t));
    forall x ensures x in SortBy(key, s) <==> x in SortBy(key, t) {
      assert x in multiset(SortBy(key, s)) <==> x in multiset(SortBy(key, t));
    }
    SortedUnique(key, SortBy(key, s), SortBy(key, t));
  }

  // ---------------------------------------------------------------- sorted keys

  function Self(s: string): string { s }

  ghost predicate AreSortedKeys(keys: seq<string>, s: set<string>) {
    StrictlySortedBy(Self, keys) && forall k :: k in keys <==> k in s
  }

  lemma SortedKeysUnique(a: seq<string>, b: seq<string>, s: set<string>)
    requires AreSortedKeys(a, s) && AreSortedKeys(b, s)
    ensures a == b
  {
    SortedUnique(Self, a, b);
  }

  lemma StrictFromDistinct(keys: seq<string>)
    requires SortedBy(Self, keys) && DistinctBy(Self, keys)
    ensures StrictlySortedBy(Self, keys)
  {
    forall i, j | 0 <= i < j < |keys| ensures Less(Self(keys[i]), Self(keys[j])) {}
  }

  /** sortedKeys: the keys in map order, then sorted. */
  method SortedKeys(s: set<string>) returns (keys: seq<string>)
    ensures AreSortedKeys(keys, s)
  {
    var rest, listed := s, [];
    while rest != {}
      invariant rest <= s && (forall k :: k in listed <==> k in s && k !in rest)
      invariant DistinctBy(Self, listed)
    {
      var k :| k in rest;
      assert k !in listed;
      forall i | 0 <= i < |listed| ensures listed[i] != k { assert listed[i] in listed; }
      rest, listed := rest - {k}, listed + [k];
    }
    keys := SortBy(Self, listed);
    SortProperties(Self, listed);
    DistinctMultiset(Self, listed, keys);
    StrictFromDistinct(keys);
    forall k ensures k in keys <==> k in s { assert k in multiset(keys) <==> k in multiset(listed); }
  }

  ghost function KeysInOrder(s: set<string>): (keys: seq<string>)
    ensures AreSortedKeys(keys, s)
  {
    SortedKeysExist(s);
    var keys :| AreSortedKeys(keys, s);
    keys
  }

  lemma {:induction false} SortedKeysExist(s: set<string>)
    ensures exists keys :: AreSortedKeys(keys, s)
  {
    if s == {} {
      assert AreSortedKeys([], s);
    } else {
      var x :| x in s;
      SortedKeysExist(s - {x});
      var keys :| AreSortedKeys(keys, s - {x});
      var more := Insert(Self, x, keys);
      InsertProperties(Self, x, keys);
      forall k ensures k in more <==> k in s { assert k in multiset(more) <==> k in multiset(keys) + multiset{x}; }
      InsertDistinct(x, keys, more);
      StrictFromDistinct(more);
      assert AreSortedKeys(more, s);
    }
  }

  lemma InsertDistinct(x: string, keys: seq<string>, more: seq<string>)
    requires x !in keys && StrictlySortedBy(Self, keys) && multiset(more) == multiset(keys) + multiset{x}
    ensures DistinctBy(Self, more)
  {
    var flat := keys + [x];
    forall i, j | 0 <= i < j < |flat| ensures Self(flat[i]) != Self(flat[j]) {
      if j == |keys| { assert keys[i] in keys; } else { assert Less(Self(keys[i]), Self(keys[j])); }
    }
    DistinctMultiset(Self, flat, more);
  }
}
