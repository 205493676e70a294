/**
 * The JavaScript array operations the managers rely on, over sequences:
 * `indexOf`, the remove-first-occurrence idiom `splice(indexOf(x), 1)`, `filter`,
 * and what `forEach` does when its callback splices the array it walks.
 */
module JsArray {

  /** No element occurs twice (the managers' arrays only ever receive fresh objects). */
  predicate Distinct<T(==)>(s: seq<T>) {
    forall i, j :: 0 <= i < j < |s| ==> s[i] != s[j]
  }

  /** `s.indexOf(x)`: the first index holding x, or -1. */
  function IndexOf<T(==)>(s: seq<T>, x: T): (i: int)
    ensures -1 <= i < |s|
    ensures i == -1 <==> x !in s
    ensures 0 <= i ==> s[i] == x && x !in s[..i]
  {
    if |s| == 0 then -1
    else if s[0] == x then 0
    else
      var j := IndexOf(s[1..], x);
      assert s[1..][..if j < 0 then 0 else j] == s[1..if j < 0 then 1 else j + 1];
      if j == -1 then -1 else j + 1
  }

  /** `const i = s.indexOf(x); if (i !== -1) s.splice(i, 1);` */
  function RemoveFirst<T(==)>(s: seq<T>, x: T): (r: seq<T>)
    ensures x !in s ==> r == s
    ensures x in s ==> |r| == |s| - 1 && multiset(r) == multiset(s) - multiset{x}
  {
    var i := IndexOf(s, x);
    if i == -1 then s
    else
      assert s == s[..i] + [s[i]] + s[i + 1..];
      s[..i] + s[i + 1..]
  }

  /** Removing from a distinct array takes out exactly x, at its position, and keeps the rest in order. */
  lemma RemoveFirstDistinct<T>(s: seq<T>, k: nat)
    requires Distinct(s) && k < |s|
    ensures RemoveFirst(s, s[k]) == s[..k] + s[k + 1..]
    ensures Distinct(RemoveFirst(s, s[k]))
    ensures s[k] !in RemoveFirst(s, s[k])
  {
    var i := IndexOf(s, s[k]);
    assert s[i] == s[k];
    assert i == k;
    var r := s[..k] + s[k + 1..];
    forall a, b | 0 <= a < b < |r| ensures r[a] != r[b] {
      var a', b' := if a < k then a else a + 1, if b < k then b else b + 1;
      assert r[a] == s[a'] && r[b] == s[b'];
    }
    forall j | 0 <= j < |r| ensures r[j] != s[k] {
      assert r[j] == s[if j < k then j else j + 1];
    }
  }

  /** Removing the first x leaves no x behind when there was at most one. */
  lemma RemoveFirstGone<T>(s: seq<T>, x: T)
    requires Distinct(s) || x !in s
    ensures x !in RemoveFirst(s, x)
  {
    if x in s {
      RemoveFirstDistinct(s, IndexOf(s, x));
    }
  }

  /** Removing an element keeps the others: nothing is added, and distinctness is kept. */
  lemma RemoveFirstSubset<T>(s: seq<T>, x: T)
    requires Distinct(s)
    ensures forall y :: y in RemoveFirst(s, x) <==> y in s && y != x
    ensures Distinct(RemoveFirst(s, x))
  {
    if x in s {
      var k := IndexOf(s, x);
      RemoveFirstDistinct(s, k);
      forall y ensures y in RemoveFirst(s, x) <==> y in s && y != x {
        if y in s && y != x {
          var j :| 0 <= j < |s| && s[j] == y;
          assert j != k;
          assert y == (s[..k] + s[k + 1..])[if j < k then j else j - 1];
        }
      }
    }
  }

  /** `s.filter(x => x in keep)`: the elements of s that are in keep, in their order. */
  function Filter<T>(s: seq<T>, keep: set<T>): seq<T>
  {
    if |s| == 0 then []
    else (if s[0] in keep then [s[0]] else []) + Filter(s[1..], keep)
  }

  /** The filtered array holds exactly the elements of s that are in keep, and is no longer. */
  lemma {:induction false} FilterMembers<T>(s: seq<T>, keep: set<T>)
    ensures forall x :: x in Filter(s, keep) <==> x in s && x in keep
    ensures |Filter(s, keep)| <= |s|
  {
    if |s| > 0 {
      FilterMembers(s[1..], keep);
      assert s == [s[0]] + s[1..];
    }
  }

  lemma {:induction false} FilterAppend<T>(a: seq<T>, b: seq<T>, keep: set<T>)
    ensures Filter(a + b, keep) == Filter(a, keep) + Filter(b, keep)
  {
    if |a| == 0 {
      assert a + b == b;
    } else {
      var head := if a[0] in keep then [a[0]] else [];
      assert (a + b)[1..] == a[1..] + b;
      FilterAppend(a[1..], b, keep);
      assert Filter(a + b, keep) == head + Filter(a[1..] + b, keep);
      assert head + (Filter(a[1..], keep) + Filter(b, keep)) == (head + Filter(a[1..], keep)) + Filter(b, keep);
    }
  }

  lemma {:induction false} FilterDistinct<T>(s: seq<T>, keep: set<T>)
    requires Distinct(s)
    ensures Distinct(Filter(s, keep))
    ensures forall x :: x in Filter(s, keep) <==> x in s && x in keep
  {
    FilterMembers(s, keep);
    if |s| > 0 {
      FilterDistinct(s[1..], keep);
      assert s[0] !in s[1..];
    }
  }

  /** Filtering with a set that holds every element changes nothing. */
  lemma {:induction false} FilterKeepsAll<T>(s: seq<T>, keep: set<T>)
    requires forall x :: x in s ==> x in keep
    ensures Filter(s, keep) == s
  {
    if |s| > 0 {
      FilterKeepsAll(s[1..], keep);
    }
  }

  /** Filtering one more element of a prefix appends it when it is kept. */
  lemma FilterSnoc<T>(s: seq<T>, k: nat, keep: set<T>)
    requires k < |s|
    ensures Filter(s[..k + 1], keep) == Filter(s[..k], keep) + (if s[k] in keep then [s[k]] else [])
  {
    assert s[..k + 1] == s[..k] + [s[k]];
    FilterAppend(s[..k], [s[k]], keep);
    assert Filter([s[k]], keep) == (if s[k] in keep then [s[k]] else []) + Filter([], keep);
  }

  /** Filtering a suffix from index k: the element at k, when kept, then the rest. */
  lemma FilterFrom<T>(s: seq<T>, k: nat, keep: set<T>)
    requires k < |s|
    ensures Filter(s[k..], keep) == (if s[k] in keep then [s[k]] else []) + Filter(s[k + 1..], keep)
  {
    assert s[k..][1..] == s[k + 1..];
  }

  /**
   * The array left by `s.forEach(x => { if (x in hit) s.splice(s.indexOf(x), 1); })` when the
   * walk is at index k. forEach fixes its bound up front and skips indices past the
   * current length; a splice at index k moves the next element into slot k, and the
   * walk goes on at k + 1, so that element is never visited.
   */
  function SpliceSweep<T>(s: seq<T>, k: nat, hit: set<T>): seq<T>
    decreases |s| - k
  {
    if k >= |s| then s
    else if s[k] in hit then SpliceSweep(s[..k] + s[k + 1..], k + 1, hit)
    else SpliceSweep(s, k + 1, hit)
  }

  /** The elements such a walk removes, in the order it removes them. */
  function SpliceHits<T>(s: seq<T>, k: nat, hit: set<T>): seq<T>
    decreases |s| - k
  {
    if k >= |s| then []
    else if s[k] in hit then [s[k]] + SpliceHits(s[..k] + s[k + 1..], k + 1, hit)
    else SpliceHits(s, k + 1, hit)
  }

  /**
   * One step of the walk at an element of hit: it is removed, and with `done` the
   * elements removed before it, the removals so far grow by it.
   */
  lemma SpliceVisitHit<T>(s: seq<T>, k: nat, hit: set<T>, done: seq<T>)
    requires k < |s| && s[k] in hit
    ensures SpliceSweep(s, k, hit) == SpliceSweep(s[..k] + s[k + 1..], k + 1, hit)
    ensures done + SpliceHits(s, k, hit) == (done + [s[k]]) + SpliceHits(s[..k] + s[k + 1..], k + 1, hit)
  {
  }

  /** One step of the walk at an element outside hit, or past the end: nothing changes. */
  lemma SpliceVisitMiss<T>(s: seq<T>, k: nat, hit: set<T>)
    requires k >= |s| || s[k] !in hit
    ensures SpliceSweep(s, k, hit) == SpliceSweep(s, k + 1, hit)
    ensures SpliceHits(s, k, hit) == SpliceHits(s, k + 1, hit)
  {
  }

  /** Taking out the element at k takes one copy of it out of the array's multiset. */
  lemma MultisetRemoveAt<T>(s: seq<T>, k: nat)
    requires k < |s|
    ensures multiset(s) == multiset(s[..k] + s[k + 1..]) + multiset{s[k]}
  {
    assert s == s[..k] + [s[k]] + s[k + 1..];
  }

  /** What the walk keeps and what it removes together make up the array. */
  lemma {:induction false} SpliceSweepPartition<T>(s: seq<T>, k: nat, hit: set<T>)
    ensures multiset(SpliceSweep(s, k, hit)) + multiset(SpliceHits(s, k, hit)) == multiset(s)
    decreases |s| - k
  {
    if k < |s| {
      if s[k] in hit {
        var s' := s[..k] + s[k + 1..];
        SpliceSweepPartition(s', k + 1, hit);
        assert SpliceSweep(s, k, hit) == SpliceSweep(s', k + 1, hit);
        assert SpliceHits(s, k, hit) == [s[k]] + SpliceHits(s', k + 1, hit);
        assert multiset(SpliceHits(s, k, hit)) == multiset{s[k]} + multiset(SpliceHits(s', k + 1, hit));
        MultisetRemoveAt(s, k);
      } else {
        SpliceSweepPartition(s, k + 1, hit);
      }
    }
  }

  /** The walk removes only elements of hit. */
  lemma {:induction false} SpliceHitsAreHits<T>(s: seq<T>, k: nat, hit: set<T>)
    ensures forall x :: x in SpliceHits(s, k, hit) ==> x in hit
    decreases |s| - k
  {
    if k < |s| {
      if s[k] in hit {
        SpliceHitsAreHits(s[..k] + s[k + 1..], k + 1, hit);
      } else {
        SpliceHitsAreHits(s, k + 1, hit);
      }
    }
  }

  /** The walk never changes the part of the array it has already passed. */
  lemma {:induction false} SpliceSweepKeepsPrefix<T>(s: seq<T>, k: nat, hit: set<T>)
    requires k <= |s|
    ensures k <= |SpliceSweep(s, k, hit)| && SpliceSweep(s, k, hit)[..k] == s[..k]
    decreases |s| - k
  {
    if k < |s| {
      var s' := if s[k] in hit then s[..k] + s[k + 1..] else s;
      assert SpliceSweep(s, k, hit) == SpliceSweep(s', k + 1, hit);
      if k + 1 <= |s'| {
        SpliceSweepKeepsPrefix(s', k + 1, hit);
        var r := SpliceSweep(s', k + 1, hit);
        assert r[..k] == r[..k + 1][..k];
        assert s'[..k] == s[..k];
      }
    }
  }

  /** An element that is not hit survives the walk. */
  lemma SpliceSweepKeepsMisses<T>(s: seq<T>, k: nat, hit: set<T>, x: T)
    requires x in s && x !in hit
    ensures x in SpliceSweep(s, k, hit)
  {
    SpliceSweepPartition(s, k, hit);
    SpliceHitsAreHits(s, k, hit);
    assert x in multiset(s);
    assert x !in multiset(SpliceHits(s, k, hit));
  }

  /**
   * The walk skips the element right after one it removes: when two neighbours are both
   * hit, the second one stays in the array.
   */
  lemma SpliceSweepSkipsNext<T>(s: seq<T>, k: nat, hit: set<T>)
    requires k + 1 < |s| && s[k] in hit && s[k + 1] in hit
    ensures s[k + 1] in SpliceSweep(s, k, hit)
  {
    var s' := s[..k] + s[k + 1..];
    assert SpliceSweep(s, k, hit) == SpliceSweep(s', k + 1, hit);
    SpliceSweepKeepsPrefix(s', k + 1, hit);
    assert s'[k] == s[k + 1];
    assert s'[..k + 1][k] == s[k + 1];
  }

  /** Two colliding neighbours: only the first is removed. */
  lemma SpliceSweepPairExample<T>(a: T, b: T)
    requires a != b
    ensures SpliceSweep([a, b], 0, {a, b}) == [b]
    ensures SpliceHits([a, b], 0, {a, b}) == [a]
  {
    assert [a, b][..0] + [a, b][1..] == [b];
  }

  /** What the walk keeps and what it removes are exactly the array's elements, and add up to its length. */
  lemma SpliceSweepMembers<T>(s: seq<T>, k: nat, hit: set<T>)
    ensures forall x :: x in s <==> x in SpliceSweep(s, k, hit) || x in SpliceHits(s, k, hit)
    ensures |SpliceSweep(s, k, hit)| + |SpliceHits(s, k, hit)| == |s|
  {
    SpliceSweepPartition(s, k, hit);
    var a, b := SpliceSweep(s, k, hit), SpliceHits(s, k, hit);
    assert |multiset(a)| + |multiset(b)| == |multiset(s)|;
    forall x ensures x in s <==> x in a || x in b {
      assert x in s <==> x in multiset(s);
      assert x in a <==> x in multiset(a);
      assert x in b <==> x in multiset(b);
    }
  }

  /**
   * A walk over s0 whose removals are decided as it goes: the elements in `visited`
   * have been decided, those in `chosen` removed, and the walk is now at index k of
   * s, whose elements from k on are still undecided. It then ends as the walk over s0
   * does with any hit set that agrees with the decisions made.
   */
  ghost predicate WalkSoFar<T>(s0: seq<T>, s: seq<T>, k: nat, visited: set<T>, chosen: set<T>)
  {
    && chosen <= visited
    && (forall x :: x in s ==> x in s0)
    && (forall i :: k <= i < |s| ==> s[i] !in visited)
    && forall g: set<T> | g <= (set x | x in s0) :: g * visited == chosen ==> SpliceSweep(s0, 0, g) == SpliceSweep(s, k, g)
  }

  /** Nothing decided yet. */
  lemma WalkStart<T>(s0: seq<T>)
    ensures WalkSoFar(s0, s0, 0, {}, {})
  {
  }

  /** The element at k is kept. */
  lemma WalkKeep<T>(s0: seq<T>, s: seq<T>, k: nat, visited: set<T>, chosen: set<T>)
    requires WalkSoFar(s0, s, k, visited, chosen) && Distinct(s) && k < |s|
    ensures WalkSoFar(s0, s, k + 1, visited + {s[k]}, chosen)
  {
    forall g: set<T> | g <= (set x | x in s0) && g * (visited + {s[k]}) == chosen
      ensures SpliceSweep(s0, 0, g) == SpliceSweep(s, k + 1, g)
    {
      assert s[k] !in g;
      assert g * visited == chosen;
      SpliceVisitMiss(s, k, g);
    }
  }

  /** The element at k is removed, and the next element moves into slot k. */
  lemma WalkRemove<T>(s0: seq<T>, s: seq<T>, k: nat, visited: set<T>, chosen: set<T>)
    requires WalkSoFar(s0, s, k, visited, chosen) && Distinct(s) && k < |s|
    ensures WalkSoFar(s0, s[..k] + s[k + 1..], k + 1, visited + {s[k]}, chosen + {s[k]})
  {
    var x, s' := s[k], s[..k] + s[k + 1..];
    forall g: set<T> | g <= (set y | y in s0) && g * (visited + {x}) == chosen + {x}
      ensures SpliceSweep(s0, 0, g) == SpliceSweep(s', k + 1, g)
    {
      assert x in g;
      assert g * visited == chosen;
      SpliceVisitHit(s, k, g, []);
    }
    forall i | k + 1 <= i < |s'| ensures s'[i] !in visited + {x} {
      assert s'[i] == s[i + 1];
    }
  }

  /** Past the end of the array nothing happens. */
  lemma WalkPast<T>(s0: seq<T>, s: seq<T>, k: nat, visited: set<T>, chosen: set<T>)
    requires WalkSoFar(s0, s, k, visited, chosen) && k >= |s|
    ensures WalkSoFar(s0, s, k + 1, visited, chosen)
  {
    forall g: set<T> | g <= (set x | x in s0) && g * visited == chosen
      ensures SpliceSweep(s0, 0, g) == SpliceSweep(s, k + 1, g)
    {
      SpliceVisitMiss(s, k, g);
    }
  }

  /** At the end, the array is the walk over s0 removing exactly the chosen elements. */
  lemma WalkEnd<T>(s0: seq<T>, s: seq<T>, k: nat, visited: set<T>, chosen: set<T>)
    requires WalkSoFar(s0, s, k, visited, chosen) && k >= |s| && chosen <= (set x | x in s0)
    ensures s == SpliceSweep(s0, 0, chosen)
  {
    assert chosen * visited == chosen;
  }
}
