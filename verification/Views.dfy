/** The live state seen resource by resource: the record of a name, the registry of a prefix, and
    what one store operation does to them. */
module Views {
  import opened Text
  import opened RoundTrip
  import Store

  // ---------------------------------------------------------------- deployments by name

  type Deployments = map<string, Store.Deployment>

  /** Records sit under their own id, and no two share a name. */
  ghost predicate GoodRecords(s: Deployments) {
    && (forall id :: id in s ==> s[id].id == id && GeneratedId(id))
    && (forall a, b :: a in s && b in s && a != b ==> s[a].name != s[b].name)
  }

  /** The record with the name, if there is one. */
  ghost function Rec(s: Deployments, n: string): Option<Store.Deployment> {
    if exists id :: id in s && s[id].name == n
    then var id :| id in s && s[id].name == n; Some(s[id])
    else None
  }

  lemma RecOf(s: Deployments, id: string)
    requires GoodRecords(s) && id in s
    ensures Rec(s, s[id].name) == Some(s[id])
  {
  }

  lemma RecSome(s: Deployments, n: string)
    requires GoodRecords(s) && Rec(s, n).Some?
    ensures var r := Rec(s, n).value; r.id in s && s[r.id] == r && r.name == n
  {
  }

  lemma RecNone(s: Deployments, n: string)
    requires Rec(s, n).None?
    ensures forall id :: id in s ==> s[id].name != n
  {
  }

  /** A state that agrees with another except on one name. */
  ghost predicate SameExcept(s: Deployments, t: Deployments, n: string) {
    forall m :: m != n ==> Rec(t, m) == Rec(s, m)
  }

  lemma PutRecord(s: Deployments, d: Store.Deployment)
    requires GoodRecords(s) && GeneratedId(d.id)
    requires forall id :: id in s && s[id].name == d.name ==> id == d.id
    requires d.id in s ==> s[d.id].name == d.name
    ensures var t := s[d.id := d];
            GoodRecords(t) && Rec(t, d.name) == Some(d) && SameExcept(s, t, d.name)
  {
    hide GeneratedId;
    var t := s[d.id := d];
    assert GoodRecords(t);
    RecOf(t, d.id);
    forall m | m != d.name ensures Rec(t, m) == Rec(s, m) {
      if Rec(s, m).Some? {
        RecSome(s, m);
        RecOf(t, Rec(s, m).value.id);
      } else {
        RecNone(s, m);
        if Rec(t, m).Some? { RecSome(t, m); }
      }
    }
  }

  lemma DropRecord(s: Deployments, id: string)
    requires GoodRecords(s) && id in s
    ensures var t := s - {id}; var n := s[id].name;
            GoodRecords(t) && Rec(t, n).None? && SameExcept(s, t, n)
  {
    hide GeneratedId;
    var t, n := s - {id}, s[id].name;
    assert GoodRecords(t);
    if Rec(t, n).Some? { RecSome(t, n); }
    forall m | m != n ensures Rec(t, m) == Rec(s, m) {
      if Rec(s, m).Some? {
        RecSome(s, m);
        RecOf(t, Rec(s, m).value.id);
      } else {
        RecNone(s, m);
        if Rec(t, m).Some? { RecSome(t, m); }
      }
    }
  }

  // ---------------------------------------------------------------- registries by prefix

  ghost predicate GoodRegistries(rs: seq<Store.Registry>) {
    Store.UniqueIds(rs) && Store.UniquePrefixes(rs)
  }

  ghost function RegRec(rs: seq<Store.Registry>, p: string): Option<Store.Registry> {
    if exists i :: 0 <= i < |rs| && rs[i].prefix == p
    then var i :| 0 <= i < |rs| && rs[i].prefix == p; Some(rs[i])
    else None
  }

  lemma RegRecAt(rs: seq<Store.Registry>, i: int)
    requires Store.UniquePrefixes(rs) && 0 <= i < |rs|
    ensures RegRec(rs, rs[i].prefix) == Some(rs[i])
  {
    var j :| 0 <= j < |rs| && rs[j].prefix == rs[i].prefix && RegRec(rs, rs[i].prefix) == Some(rs[j]);
    assert j == i;
  }

  lemma RegRecSome(rs: seq<Store.Registry>, p: string) returns (i: int)
    requires RegRec(rs, p).Some?
    ensures 0 <= i < |rs| && rs[i] == RegRec(rs, p).value && rs[i].prefix == p
  {
    i :| 0 <= i < |rs| && rs[i].prefix == p && RegRec(rs, p) == Some(rs[i]);
  }

  lemma RegRecNone(rs: seq<Store.Registry>, p: string)
    requires forall i :: 0 <= i < |rs| ==> rs[i].prefix != p
    ensures RegRec(rs, p).None?
  {
  }

  ghost predicate SameRegistriesExcept(rs: seq<Store.Registry>, qs: seq<Store.Registry>, p: string) {
    forall m :: m != p ==> RegRec(qs, m) == RegRec(rs, m)
  }

  /** Two registry lists that hold the same entries except for those of one prefix. */
  lemma SameEntriesSameRecords(rs: seq<Store.Registry>, qs: seq<Store.Registry>, p: string)
    requires Store.UniquePrefixes(rs) && Store.UniquePrefixes(qs)
    requires forall r: Store.Registry :: r.prefix != p ==> (r in rs <==> r in qs)
    ensures SameRegistriesExcept(rs, qs, p)
  {
    forall m | m != p ensures RegRec(qs, m) == RegRec(rs, m) {
      if RegRec(rs, m).Some? {
        var i := RegRecSome(rs, m);
        assert rs[i] in qs;
        var j :| 0 <= j < |qs| && qs[j] == rs[i];
        RegRecAt(qs, j);
      } else if RegRec(qs, m).Some? {
        var j := RegRecSome(qs, m);
        assert qs[j] in rs;
        var i :| 0 <= i < |rs| && rs[i] == qs[j];
        RegRecAt(rs, i);
      }
    }
  }

  lemma AddRegistry(rs: seq<Store.Registry>, r: Store.Registry)
    requires GoodRegistries(rs) && RegRec(rs, r.prefix).None? && r.id !in Store.IdsIn(rs)
    ensures GoodRegistries(rs + [r]) && RegRec(rs + [r], r.prefix) == Some(r) &&
            SameRegistriesExcept(rs, rs + [r], r.prefix)
  {
    forall i | 0 <= i < |rs| ensures rs[i].id != r.id && rs[i].prefix != r.prefix {
      assert rs[i].id in Store.IdsIn(rs);
      RegRecAt(rs, i);
    }
    assert (rs + [r])[|rs|] == r;
    RegRecAt(rs + [r], |rs|);
    SameEntriesSameRecords(rs, rs + [r], r.prefix);
  }

  lemma SetRegistry(rs: seq<Store.Registry>, i: int, r: Store.Registry)
    requires GoodRegistries(rs) && 0 <= i < |rs| && rs[i].id == r.id && rs[i].prefix == r.prefix
    ensures GoodRegistries(rs[i := r]) && RegRec(rs[i := r], r.prefix) == Some(r) &&
            SameRegistriesExcept(rs, rs[i := r], r.prefix)
  {
    var qs := rs[i := r];
    assert forall k :: 0 <= k < |rs| ==> qs[k].prefix == rs[k].prefix && qs[k].id == rs[k].id;
    assert Store.UniquePrefixes(qs) && Store.UniqueIds(qs);
    RegRecAt(qs, i);
    forall x: Store.Registry | x.prefix != r.prefix ensures x in rs <==> x in qs {
      if x in rs { var k :| 0 <= k < |rs| && rs[k] == x; assert qs[k] == x; }
      if x in qs { var k :| 0 <= k < |qs| && qs[k] == x; assert rs[k] == x; }
    }
    SameEntriesSameRecords(rs, qs, r.prefix);
  }

  lemma DropRegistry(rs: seq<Store.Registry>, i: int)
    requires GoodRegistries(rs) && 0 <= i < |rs|
    ensures var qs := rs[..i] + rs[i + 1..];
            GoodRegistries(qs) && RegRec(qs, rs[i].prefix).None? && SameRegistriesExcept(rs, qs, rs[i].prefix)
  {
    var qs, p := rs[..i] + rs[i + 1..], rs[i].prefix;
    Store.RemoveKeepsUnique(rs, i);
    assert forall k :: 0 <= k < |qs| ==> qs[k] == rs[if k < i then k else k + 1];
    RegRecNone(qs, p);
    forall x: Store.Registry | x.prefix != p ensures x in rs <==> x in qs {
      if x in rs {
        var k :| 0 <= k < |rs| && rs[k] == x;
        assert qs[if k < i then k else k - 1] == x;
      }
    }
    SameEntriesSameRecords(rs, qs, p);
  }

  /** With unique ids, first, last and only entry with an id coincide. */
  lemma OnlyWithId(rs: seq<Store.Registry>, i: int)
    requires Store.UniqueIds(rs) && 0 <= i < |rs|
    ensures Store.LastWithId(rs, rs[i].id) == i && Store.FirstWithId(rs, rs[i].id) == i
  {
    assert rs[Store.FirstWithId(rs, rs[i].id)].id == rs[i].id;
  }
}
