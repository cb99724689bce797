/** Which of a deployment's containers the reconciler keeps: choosePrimaryContainer and
    containerSelectionScore (orchestrator/internal/reconciler/reconciler.go). */
module Selection {
  import opened Text
  import opened Ordering
  import opened Docker

  function Score(c: Listed, canonical: string): (score: nat)
    ensures 1 <= score <= 4 && (score >= 3 <==> c.running)
  {
    var named := canonical != "" && TrimPrefix(TrimSpace(c.name), "/") == canonical;
    if c.running && named then 4 else if c.running then 3 else if named then 2 else 1
  }

  /** The order of the sort: higher scores first, then smaller ids. */
  predicate Better(canonical: string, a: Listed, b: Listed) {
    Score(a, canonical) > Score(b, canonical) || (Score(a, canonical) == Score(b, canonical) && Less(a.id, b.id))
  }

  /** A string key whose order is the order of the sort. */
  function Rank(canonical: string): Listed -> string {
    c => [(('4' as int) - Score(c, canonical)) as char] + c.id
  }

  lemma RankIsOrder(canonical: string, a: Listed, b: Listed)
    ensures Less(Rank(canonical)(a), Rank(canonical)(b)) <==> Better(canonical, a, b)
    ensures Rank(canonical)(a) == Rank(canonical)(b) ==> a.id == b.id
  {
    hide TrimSpace, Trimmed, TrimPrefix;
    var x, y := Rank(canonical)(a), Rank(canonical)(b);
    assert x[1..] == a.id && y[1..] == b.id;
    assert x == [x[0]] + a.id && y == [y[0]] + b.id;
  }

  ghost predicate DistinctIds(listing: seq<Listed>) {
    forall i, j :: 0 <= i < j < |listing| ==> listing[i].id != listing[j].id
  }

  /** containersByDeployment[id] */
  function Candidates(listing: seq<Listed>, id: string): (r: seq<Listed>) {
    if listing == [] then []
    else
      var last := listing[|listing| - 1];
      Candidates(listing[..|listing| - 1], id) + (if last.deployment == id then [last] else [])
  }

  lemma {:induction false} CandidatesAre(listing: seq<Listed>, id: string)
    ensures forall c :: c in Candidates(listing, id) <==> c in listing && c.deployment == id
  {
    if listing != [] {
      CandidatesAre(listing[..|listing| - 1], id);
      assert listing == listing[..|listing| - 1] + [listing[|listing| - 1]];
    }
  }

  lemma {:induction false} CandidatesDistinct(listing: seq<Listed>, id: string)
    requires DistinctIds(listing)
    ensures DistinctIds(Candidates(listing, id))
  {
    if listing != [] {
      var front, last := listing[..|listing| - 1], listing[|listing| - 1];
      CandidatesDistinct(front, id);
      CandidatesAre(front, id);
      forall i | 0 <= i < |Candidates(front, id)| ensures Candidates(front, id)[i].id != last.id {
        assert Candidates(front, id)[i] in front;
      }
    }
  }

  lemma {:induction false} CandidatesCount(listing: seq<Listed>, id: string, c: Listed)
    ensures multiset(Candidates(listing, id))[c] == (if c.deployment == id then multiset(listing)[c] else 0)
  {
    if listing != [] {
      CandidatesCount(listing[..|listing| - 1], id, c);
      assert listing == listing[..|listing| - 1] + [listing[|listing| - 1]];
    }
  }

  /** The candidates in the order of the sort; the first is the primary, the others are stale. */
  function Sorted(name: string, candidates: seq<Listed>): seq<Listed> {
    SortBy(Rank(TrimSpace(name)), candidates)
  }

  function Primary(name: string, candidates: seq<Listed>): Option<Listed> {
    var sorted := Sorted(name, candidates);
    if sorted == [] then None else Some(sorted[0])
  }

  /** The primary is a candidate that beats every other candidate. */
  lemma PrimaryIsBest(name: string, candidates: seq<Listed>)
    requires DistinctIds(candidates)
    ensures Primary(name, candidates).None? <==> candidates == []
    ensures Primary(name, candidates).Some? ==>
              Primary(name, candidates).value in candidates &&
              forall c :: c in candidates && c != Primary(name, candidates).value ==>
                Better(TrimSpace(name), Primary(name, candidates).value, c)
  {
    hide Score, TrimSpace, Trimmed, Leq;
    var key, sorted := Rank(TrimSpace(name)), Sorted(name, candidates);
    SortProperties(key, candidates);
    assert |sorted| == |multiset(sorted)| == |candidates|;
    if candidates != [] {
      assert sorted[0] in multiset(candidates);
      forall c | c in candidates && c != sorted[0] ensures Better(TrimSpace(name), sorted[0], c) {
        assert c in multiset(sorted);
        var i :| 0 <= i < |sorted| && sorted[i] == c;
        DifferentIds(candidates, sorted[0], c);
        RankIsOrder(TrimSpace(name), sorted[0], c);
        assert Leq(key(sorted[0]), key(sorted[i]));
      }
    }
  }

  lemma DifferentIds(candidates: seq<Listed>, a: Listed, b: Listed)
    requires DistinctIds(candidates) && a in candidates && b in candidates && a != b
    ensures a.id != b.id
  {
  }

  /** Without its slash, the container has the deployment's name. */
  predicate HasName(c: Listed, name: string) {
    TrimSpace(name) != "" && TrimPrefix(TrimSpace(c.name), "/") == TrimSpace(name)
  }

  /** A running container is preferred; then one with the deployment's name; then the smaller id. */
  predicate Preferred(name: string, a: Listed, b: Listed) {
    if a.running != b.running then a.running
    else if HasName(a, name) != HasName(b, name) then HasName(a, name)
    else Less(a.id, b.id)
  }

  lemma PrimaryIsPreferred(name: string, candidates: seq<Listed>)
    requires DistinctIds(candidates)
    ensures Primary(name, candidates).Some? ==>
              forall c :: c in candidates && c != Primary(name, candidates).value ==>
                Preferred(name, Primary(name, candidates).value, c)
  {
    hide Sorted, TrimSpace, Trimmed, TrimPrefix;
    PrimaryIsBest(name, candidates);
  }

  /** Whether the primary runs tells whether any candidate runs. */
  lemma PrimaryRuns(name: string, candidates: seq<Listed>)
    requires DistinctIds(candidates)
    ensures (Primary(name, candidates).Some? && Primary(name, candidates).value.running) <==>
            (exists c :: c in candidates && c.running)
  {
    hide Sorted, TrimSpace, Trimmed;
    PrimaryIsBest(name, candidates);
  }

  /** The choice does not depend on the order in which Docker lists the containers. */
  lemma PrimaryIgnoresOrder(name: string, id: string, listing: seq<Listed>, other: seq<Listed>)
    requires DistinctIds(listing) && multiset(listing) == multiset(other)
    ensures Primary(name, Candidates(listing, id)) == Primary(name, Candidates(other, id))
    ensures Sorted(name, Candidates(listing, id)) == Sorted(name, Candidates(other, id))
  {
    hide TrimSpace, Trimmed, Score, Rank, Candidates;
    var a, b, key := Candidates(listing, id), Candidates(other, id), Rank(TrimSpace(name));
    forall c ensures multiset(a)[c] == multiset(b)[c] {
      CandidatesCount(listing, id, c);
      CandidatesCount(other, id, c);
    }
    assert multiset(a) == multiset(b);
    CandidatesDistinct(listing, id);
    forall i, j | 0 <= i < j < |a| ensures key(a[i]) != key(a[j]) { RankIsOrder(TrimSpace(name), a[i], a[j]); }
    SortIgnoresOrder(key, a, b);
  }
}
