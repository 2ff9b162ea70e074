/** Sums over the values of a finite map, one key at a time. */
module Sums {

  function At<K>(c: map<K, int>, k: K): int { if k in c then c[k] else 0 }

  ghost function Sum<K>(c: map<K, int>): int
    decreases |c|
  {
    if c == map[] then 0 else
    var k :| k in c;
    c[k] + Sum(c - {k})
  }

  lemma {:induction false} SumRemove<K>(c: map<K, int>, k: K)
    requires k in c
    ensures Sum(c) == c[k] + Sum(c - {k})
    decreases |c|
  {
    var first :| first in c && Sum(c) == c[first] + Sum(c - {first});
    if first != k {
      SumRemove(c - {first}, k);
      SumRemove(c - {k}, first);
      assert c - {first} - {k} == c - {k} - {first};
    }
  }

  lemma {:induction false} SumNothing<K>(c: map<K, int>)
    requires forall k :: At(c, k) == 0
    ensures Sum(c) == 0
    decreases |c|
  {
    if c != map[] {
      var k :| k in c;
      SumRemove(c, k);
      Without(c, k);
      SumNothing(c - {k});
    }
  }

  lemma Without<K>(c: map<K, int>, k: K)
    ensures forall j :: At(c - {k}, j) == if j == k then 0 else At(c, j)
    ensures Sum(c) == At(c, k) + Sum(c - {k})
  {
    if k in c { SumRemove(c, k); } else { assert c - {k} == c; }
  }

  lemma {:induction false} SumAgree<K>(c: map<K, int>, d: map<K, int>)
    requires forall k :: At(c, k) == At(d, k)
    ensures Sum(c) == Sum(d)
    decreases |c|
  {
    if c == map[] {
      assert forall k :: At(c, k) == 0;
      SumNothing(d);
    } else {
      var k :| k in c;
      Without(c, k);
      Without(d, k);
      SumAgree(c - {k}, d - {k});
    }
  }

  /** Two maps that agree away from one key differ in their sums by that key alone. */
  lemma SumChange<K>(c: map<K, int>, d: map<K, int>, k: K)
    requires c - {k} == d - {k}
    ensures Sum(d) - Sum(c) == At(d, k) - At(c, k)
  {
    if k in c { SumRemove(c, k); } else { assert c - {k} == c; }
    if k in d { SumRemove(d, k); } else { assert d - {k} == d; }
  }

  ghost predicate AgreeAway<P(!new), K(!new)>(c: map<K, int>, d: map<K, int>, at: P -> K, s: set<P>) {
    forall k :: (forall p :: p in s ==> at(p) != k) ==> At(c, k) == At(d, k)
  }

  ghost predicate Apart<P(!new), K>(at: P -> K, s: set<P>) {
    forall p, q :: p in s && q in s && at(p) == at(q) ==> p == q
  }

  // one of the keys put back where it was
  lemma PutBack<P(!new), K(!new)>(c: map<K, int>, d: map<K, int>, at: P -> K, s: set<P>, p: P) returns (e: map<K, int>)
    requires Apart(at, s) && AgreeAway(c, d, at, s) && p in s
    ensures AgreeAway(c, e, at, s - {p}) && Sum(d) - Sum(e) == At(d, at(p)) - At(c, at(p))
    ensures forall q :: q in s && q != p ==> At(e, at(q)) == At(d, at(q))
  {
    e := d[at(p) := At(c, at(p))];
    assert e - {at(p)} == d - {at(p)};
    SumChange(e, d, at(p));
    forall k | forall q :: q in s - {p} ==> at(q) != k ensures At(c, k) == At(e, k) {
      assert k != at(p) ==> forall q :: q in s ==> at(q) != k;
    }
  }

  /** Two maps that agree away from some keys differ in their sums by what those keys moved. */
  lemma {:induction false} SumMoves<P(!new), K(!new)>(
    c: map<K, int>, d: map<K, int>, at: P -> K, s: set<P>, moved: map<P, int>)
    requires Apart(at, s) && AgreeAway(c, d, at, s)
    requires moved.Keys == s && forall p :: p in s ==> moved[p] == At(d, at(p)) - At(c, at(p))
    ensures Sum(d) - Sum(c) == Sum(moved)
    decreases |s|
  {
    if s == {} {
      assert forall k :: At(c, k) == At(d, k);
      SumAgree(c, d);
    } else {
      var p :| p in s;
      var e := PutBack(c, d, at, s, p);
      SumMoves(c, e, at, s - {p}, moved - {p});
      SumRemove(moved, p);
    }
  }

  // the same when the two maps have no other keys
  lemma {:induction false} SumDifference<K>(c: map<K, int>, d: map<K, int>, s: set<K>, moved: map<K, int>)
    requires c.Keys <= s && d.Keys <= s && moved.Keys == s && forall k :: k in s ==> moved[k] == At(d, k) - At(c, k)
    ensures Sum(d) - Sum(c) == Sum(moved)
    decreases |s|
  {
    if s != {} {
      var k :| k in s;
      Without(c, k);
      Without(d, k);
      SumRemove(moved, k);
      SumDifference(c - {k}, d - {k}, s - {k}, moved - {k});
    }
  }
}
