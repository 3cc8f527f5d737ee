/**
 * The two MongoDB reads every controller is built from, over a collection
 * modelled as a map from document id to document: `find(filter)` returns
 * each matching document exactly once, and `findOne(filter)` returns some
 * matching document or nothing.
 */
module Query {
  import opened Common

  /** The (id, document) pairs of `m` that satisfy the filter `keep`. */
  ghost function Selected<T>(m: map<Id, T>, keep: (Id, T) -> bool): set<(Id, T)> {
    set k | k in m && keep(k, m[k]) :: (k, m[k])
  }

  /** No two entries of a listing carry the same id. */
  ghost predicate DistinctIds<T>(r: seq<(Id, T)>) {
    forall i, j :: 0 <= i < j < |r| ==> r[i].0 != r[j].0
  }

  /** Appending an entry whose id the listing does not hold keeps its ids distinct. */
  lemma AppendFresh<T>(r: seq<(Id, T)>, p: (Id, T), ids: set<Id>)
    requires DistinctIds(r) && (forall i :: 0 <= i < |r| ==> r[i].0 in ids) && p.0 !in ids
    ensures DistinctIds(r + [p]) && forall i :: 0 <= i < |r + [p]| ==> (r + [p])[i].0 in ids + {p.0}
  {
  }

  /** The filter `{}`. */
  function All<T>(): (Id, T) -> bool {
    (k: Id, x: T) => true
  }

  /** Some document of `m` satisfies the filter `keep`. */
  ghost predicate Any<T>(m: map<Id, T>, keep: (Id, T) -> bool) {
    exists k :: k in m && keep(k, m[k])
  }

  /** The pairs of `Selected(m, keep)` whose id lies in `ids`. */
  ghost function SelectedAmong<T>(m: map<Id, T>, keep: (Id, T) -> bool, ids: set<Id>): set<(Id, T)>
    requires ids <= m.Keys
  {
    set k | k in ids && keep(k, m[k]) :: (k, m[k])
  }

  lemma SelectedAmongStep<T>(m: map<Id, T>, keep: (Id, T) -> bool, ids: set<Id>, k: Id)
    requires ids <= m.Keys && k in m && k !in ids
    ensures (k, m[k]) !in SelectedAmong(m, keep, ids)
    ensures SelectedAmong(m, keep, ids + {k}) ==
      SelectedAmong(m, keep, ids) + (if keep(k, m[k]) then {(k, m[k])} else {})
  {
  }

  /** `find(filter)`: every matching document once, in no particular order. */
  method Collect<T>(m: map<Id, T>, keep: (Id, T) -> bool) returns (r: seq<(Id, T)>)
    ensures multiset(r) == multiset(Selected(m, keep))
    ensures forall p :: p in r <==> p.0 in m && p.1 == m[p.0] && keep(p.0, p.1)
    ensures DistinctIds(r)
  {
    r := [];
    var rest := m.Keys;
    ghost var done: set<Id> := {};
    while rest != {}
      invariant rest <= m.Keys && done == m.Keys - rest
      invariant multiset(r) == multiset(SelectedAmong(m, keep, done))
      invariant forall i :: 0 <= i < |r| ==> r[i].0 in done
      invariant DistinctIds(r)
      decreases rest
    {
      var k :| k in rest;
      SelectedAmongStep(m, keep, done, k);
      if keep(k, m[k]) {
        AppendFresh(r, (k, m[k]), done);
        r := r + [(k, m[k])];
      }
      rest := rest - {k};
      done := done + {k};
    }
    assert SelectedAmong(m, keep, done) == Selected(m, keep);
    forall p ensures p in r <==> p.0 in m && p.1 == m[p.0] && keep(p.0, p.1) {
      assert p in r <==> p in multiset(r);
    }
  }

  /**
   * A listing whose ids are distinct and are exactly the ids in `ks` has
   * one entry per id.
   */
  lemma {:induction false} DistinctIdsCount<T>(r: seq<(Id, T)>, ks: set<Id>)
    requires DistinctIds(r)
    requires forall k :: k in ks <==> exists i :: 0 <= i < |r| && r[i].0 == k
    ensures |r| == |ks|
  {
    if r != [] {
      var n := |r| - 1;
      var pre := r[..n];
      var rest := ks - {r[n].0};
      forall k ensures k in rest <==> exists i :: 0 <= i < |pre| && pre[i].0 == k {
        if k in rest {
          var i :| 0 <= i < |r| && r[i].0 == k;
          assert i != n && pre[i] == r[i];
        }
        if i :| 0 <= i < |pre| && pre[i].0 == k {
          assert r[i] == pre[i];
        }
      }
      DistinctIdsCount(pre, rest);
    } else {
      assert forall k :: k !in ks;
      assert ks == {};
    }
  }

  /** A listing of a whole collection, each document once, is as long as the collection. */
  lemma ListingCount<T>(r: seq<(Id, T)>, m: map<Id, T>)
    requires forall p :: p in r <==> p.0 in m && p.1 == m[p.0]
    requires DistinctIds(r)
    ensures |r| == |m|
  {
    forall k ensures k in m.Keys <==> exists i :: 0 <= i < |r| && r[i].0 == k {
      if k in m {
        assert (k, m[k]) in r;
      }
      if i :| 0 <= i < |r| && r[i].0 == k {
        assert r[i] in r;
      }
    }
    DistinctIdsCount(r, m.Keys);
  }

  /** `findOne(filter)`: the id of a matching document, or None when none matches. */
  method FindOne<T>(m: map<Id, T>, keep: (Id, T) -> bool) returns (found: Option<Id>)
    ensures found.Some? ==> found.value in m && keep(found.value, m[found.value])
    ensures found.None? <==> !Any(m, keep)
  {
    var rest := m.Keys;
    while rest != {}
      invariant rest <= m.Keys
      invariant forall k :: k in m && k !in rest ==> !keep(k, m[k])
      decreases rest
    {
      var k :| k in rest;
      if keep(k, m[k]) {
        return Some(k);
      }
      rest := rest - {k};
    }
    return None;
  }
}
