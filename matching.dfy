/** The resource matcher of `_filter_resources`: keep the candidates sharing at
    least one requirement, then sort them by how many requirements they meet,
    highest first, with ties left in input order (Python's `list.sort` is
    stable, also with `reverse=True`). */
module Matching {
  import opened Schemas

  /** `any(req in resource.capabilities for req in requirements)` */
  predicate Matches(r: Resource, reqs: seq<string>) {
    exists req :: req in reqs && req in r.capabilities
  }

  /** `sum(1 for req in requirements if req in r.capabilities)`: a requirement
      listed twice is counted twice. */
  function MatchCount(r: Resource, reqs: seq<string>): nat {
    if reqs == [] then 0 else (if reqs[0] in r.capabilities then 1 else 0) + MatchCount(r, reqs[1..])
  }

  lemma {:induction false} MatchesIffCounted(r: Resource, reqs: seq<string>)
    ensures Matches(r, reqs) <==> MatchCount(r, reqs) > 0
  {
    if reqs != [] {
      MatchesIffCounted(r, reqs[1..]);
      assert forall q :: q in reqs <==> q == reqs[0] || q in reqs[1..];
    }
  }

  /** The candidates that share a requirement, in input order (the loop of
      `_filter_resources` before the sort). */
  function Suitable(s: seq<Resource>, reqs: seq<string>): seq<Resource> {
    if s == [] then []
    else Suitable(s[..|s| - 1], reqs) + (if Matches(s[|s| - 1], reqs) then [s[|s| - 1]] else [])
  }

  /** The sort key of `_filter_resources`: how many of `reqs` a resource meets. */
  function ByMatchCount(reqs: seq<string>): Resource -> nat {
    r => MatchCount(r, reqs)
  }

  /** The elements of `s` that meet exactly `k` requirements, in order. */
  function WithCount(s: seq<Resource>, key: Resource -> nat, k: nat): seq<Resource> {
    if s == [] then []
    else (if key(s[0]) == k then [s[0]] else []) + WithCount(s[1..], key, k)
  }

  lemma {:induction false} WithCountMembers(s: seq<Resource>, key: Resource -> nat, k: nat, y: Resource)
    ensures y in WithCount(s, key, k) <==> y in s && key(y) == k
  {
    if s != [] {
      WithCountMembers(s[1..], key, k, y);
      assert y in s <==> y == s[0] || y in s[1..];
    }
  }

  ghost predicate NonIncreasing(s: seq<Resource>, key: Resource -> nat) {
    forall i, j :: 0 <= i < j < |s| ==> key(s[i]) >= key(s[j])
  }

  lemma {:induction false} WithCountAppend(a: seq<Resource>, b: seq<Resource>, key: Resource -> nat, k: nat)
    ensures WithCount(a + b, key, k) == WithCount(a, key, k) + WithCount(b, key, k)
  {
    if a == [] {
      assert a + b == b;
    } else {
      assert [a[0]] + (a[1..] + b) == a + b by {
        assert a == [a[0]] + a[1..];
      }
      WithCountAppend(a[1..], b, key, k);
      var h := WithCount([a[0]], key, k);
      assert h + (WithCount(a[1..], key, k) + WithCount(b, key, k))
          == (h + WithCount(a[1..], key, k)) + WithCount(b, key, k);
    }
  }

  lemma PrependNonIncreasing(y: Resource, t: seq<Resource>, key: Resource -> nat)
    requires NonIncreasing(t, key)
    requires forall j :: 0 <= j < |t| ==> key(t[j]) <= key(y)
    ensures NonIncreasing([y] + t, key)
  {
    var u := [y] + t;
    forall i, j | 0 <= i < j < |u| ensures key(u[i]) >= key(u[j]) {
      assert u[j] == t[j - 1];
      if i > 0 {
        assert u[i] == t[i - 1];
      }
    }
  }

  /** The head of a non-increasing sequence meets at least as many requirements
      as any of its elements. */
  lemma HeadBounds(s: seq<Resource>, key: Resource -> nat)
    requires NonIncreasing(s, key) && s != []
    ensures forall z :: z in s ==> key(z) <= key(s[0])
    ensures forall j :: 0 <= j < |s| ==> key(s[j]) <= key(s[0])
  {
    forall z | z in s ensures key(z) <= key(s[0]) {
      var j :| 0 <= j < |s| && s[j] == z;
      if j > 0 {
        assert key(s[0]) >= key(s[j]);
      }
    }
  }

  /** Places `x` in front of the first element meeting no more requirements than
      it does, i.e. after every element that outranks it. */
  function Insert(x: Resource, s: seq<Resource>, key: Resource -> nat): (r: seq<Resource>)
    ensures multiset(r) == multiset{x} + multiset(s)
  {
    if s == [] || key(s[0]) <= key(x) then
      [x] + s
    else
      assert s == [s[0]] + s[1..];
      [s[0]] + Insert(x, s[1..], key)
  }

  /** Inserting into a sequence sorted by descending count keeps it sorted. */
  lemma {:induction false} InsertNonIncreasing(x: Resource, s: seq<Resource>, key: Resource -> nat)
    requires NonIncreasing(s, key)
    ensures NonIncreasing(Insert(x, s, key), key)
  {
    if s == [] || key(s[0]) <= key(x) {
      assert forall j :: 0 <= j < |s| ==> key(s[j]) <= key(x) by {
        if s != [] {
          HeadBounds(s, key);
        }
      }
      PrependNonIncreasing(x, s, key);
    } else {
      var t := Insert(x, s[1..], key);
      assert NonIncreasing(t, key) by {
        assert NonIncreasing(s[1..], key) by {
          forall i, j | 0 <= i < j < |s| - 1 ensures key(s[1..][i]) >= key(s[1..][j]) {
            assert s[1..][i] == s[i + 1] && s[1..][j] == s[j + 1];
          }
        }
        InsertNonIncreasing(x, s[1..], key);
      }
      assert forall j :: 0 <= j < |t| ==> key(t[j]) <= key(s[0]) by {
        HeadBounds(s, key);
        forall j | 0 <= j < |t| ensures key(t[j]) <= key(s[0]) {
          assert t[j] in multiset(t);
          assert t[j] == x || t[j] in s[1..];
        }
      }
      PrependNonIncreasing(s[0], t, key);
    }
  }

  /** Inserting puts `x` before the elements of its own count already in `s`. */
  lemma {:induction false} InsertByCount(x: Resource, s: seq<Resource>, key: Resource -> nat, k: nat)
    ensures WithCount(Insert(x, s, key), key, k) == WithCount([x], key, k) + WithCount(s, key, k)
  {
    if s == [] || key(s[0]) <= key(x) {
      WithCountAppend([x], s, key, k);
    } else {
      var t := Insert(x, s[1..], key);
      assert WithCount(t, key, k) == WithCount([x], key, k) + WithCount(s[1..], key, k) by {
        InsertByCount(x, s[1..], key, k);
      }
      assert [s[0]] + s[1..] == s;
      ConsPastLower(s[0], x, t, s[1..], key, k);
    }
  }

  /** An element `y` that outranks `x` keeps its place in front of both. */
  lemma ConsPastLower(y: Resource, x: Resource, t: seq<Resource>, u: seq<Resource>, key: Resource -> nat, k: nat)
    requires key(y) > key(x)
    requires WithCount(t, key, k) == WithCount([x], key, k) + WithCount(u, key, k)
    ensures WithCount([y] + t, key, k) == WithCount([x], key, k) + WithCount([y] + u, key, k)
  {
    var wy, wx := WithCount([y], key, k), WithCount([x], key, k);
    WithCountAppend([y], t, key, k);
    WithCountAppend([y], u, key, k);
    assert wy == [] || wx == [] by {
      assert [x][1..] == [] && [y][1..] == [];
    }
    SwapEmpty(wy, wx, WithCount(u, key, k));
  }

  lemma SwapEmpty(a: seq<Resource>, b: seq<Resource>, c: seq<Resource>)
    requires a == [] || b == []
    ensures a + (b + c) == b + (a + c)
  {
    if a == [] {
      assert a + (b + c) == b + c;
      assert a + c == c;
    } else {
      assert b + c == c;
      assert b + (a + c) == a + c;
    }
  }

  /** The stable sort by descending match count (insertion sort). */
  function SortByCount(s: seq<Resource>, key: Resource -> nat): (r: seq<Resource>)
    ensures multiset(r) == multiset(s)
    ensures NonIncreasing(r, key)
  {
    if s == [] then []
    else
      assert s == [s[0]] + s[1..];
      InsertNonIncreasing(s[0], SortByCount(s[1..], key), key);
      Insert(s[0], SortByCount(s[1..], key), key)
  }

  /** Sorting keeps, for every count, the elements of that count in input order. */
  lemma {:induction false} SortByCountStable(s: seq<Resource>, key: Resource -> nat, k: nat)
    ensures WithCount(SortByCount(s, key), key, k) == WithCount(s, key, k)
  {
    if s != [] {
      var t := SortByCount(s[1..], key);
      assert SortByCount(s, key) == Insert(s[0], t, key);
      assert WithCount(t, key, k) == WithCount(s[1..], key, k) by {
        SortByCountStable(s[1..], key, k);
      }
      assert WithCount(Insert(s[0], t, key), key, k) == WithCount([s[0]], key, k) + WithCount(t, key, k) by {
        InsertByCount(s[0], t, key, k);
      }
      assert WithCount(s, key, k) == WithCount([s[0]], key, k) + WithCount(s[1..], key, k) by {
        assert s == [s[0]] + s[1..];
        WithCountAppend([s[0]], s[1..], key, k);
      }
    }
  }

  /** `_filter_resources` as a value: filter, then stable descending sort. */
  function Rank(s: seq<Resource>, reqs: seq<string>): seq<Resource> {
    SortByCount(Suitable(s, reqs), ByMatchCount(reqs))
  }

  lemma {:induction false} SuitableByCount(s: seq<Resource>, reqs: seq<string>, k: nat)
    ensures WithCount(Suitable(s, reqs), ByMatchCount(reqs), k) == if k == 0 then [] else WithCount(s, ByMatchCount(reqs), k)
  {
    if s != [] {
      var init, last := s[..|s| - 1], s[|s| - 1];
      SuitableByCount(init, reqs, k);
      assert s == init + [last];
      WithCountAppend(init, [last], ByMatchCount(reqs), k);
      WithCountAppend(Suitable(init, reqs), if Matches(last, reqs) then [last] else [], ByMatchCount(reqs), k);
      MatchesIffCounted(last, reqs);
    }
  }

  /** The elements of `s` with a positive key, in input order. */
  function Positive(s: seq<Resource>, key: Resource -> nat): seq<Resource> {
    if s == [] then []
    else (if key(s[0]) > 0 then [s[0]] else []) + Positive(s[1..], key)
  }

  lemma {:induction false} PositiveAppend(a: seq<Resource>, b: seq<Resource>, key: Resource -> nat)
    ensures Positive(a + b, key) == Positive(a, key) + Positive(b, key)
  {
    if a == [] {
      assert a + b == b;
    } else {
      assert [a[0]] + (a[1..] + b) == a + b by {
        assert a == [a[0]] + a[1..];
      }
      PositiveAppend(a[1..], b, key);
      var h := if key(a[0]) > 0 then [a[0]] else [];
      assert h + (Positive(a[1..], key) + Positive(b, key))
          == (h + Positive(a[1..], key)) + Positive(b, key);
    }
  }

  /** The filter loop keeps exactly the candidates meeting some requirement, in
      input order, across all counts. */
  lemma {:induction false} SuitableInOrder(s: seq<Resource>, reqs: seq<string>)
    ensures Suitable(s, reqs) == Positive(s, ByMatchCount(reqs))
  {
    if s != [] {
      var init, last := s[..|s| - 1], s[|s| - 1];
      SuitableInOrder(init, reqs);
      assert s == init + [last];
      PositiveAppend(init, [last], ByMatchCount(reqs));
      MatchesIffCounted(last, reqs);
      assert Positive([last], ByMatchCount(reqs)) == if Matches(last, reqs) then [last] else [] by {
        assert [last][1..] == [];
      }
    }
  }

  /** What the ranking keeps and in which order: exactly the candidates meeting
      at least one requirement, each count's candidates in input order, counts
      non-increasing; and nothing else is added or lost (a permutation of the
      filtered list). */
  lemma RankSpec(s: seq<Resource>, reqs: seq<string>)
    ensures var r := Rank(s, reqs);
      && NonIncreasing(r, ByMatchCount(reqs))
      && multiset(r) == multiset(Suitable(s, reqs))
      && (forall k :: WithCount(r, ByMatchCount(reqs), k) == if k == 0 then [] else WithCount(s, ByMatchCount(reqs), k))
      && (forall x :: x in r <==> x in s && Matches(x, reqs))
  {
    var r := Rank(s, reqs);
    forall k ensures WithCount(r, ByMatchCount(reqs), k) == if k == 0 then [] else WithCount(s, ByMatchCount(reqs), k) {
      SortByCountStable(Suitable(s, reqs), ByMatchCount(reqs), k);
      SuitableByCount(s, reqs, k);
    }
    forall x ensures x in r <==> x in s && Matches(x, reqs) {
      MatchesIffCounted(x, reqs);
      var k := MatchCount(x, reqs);
      WithCountMembers(r, ByMatchCount(reqs), k, x);
      WithCountMembers(s, ByMatchCount(reqs), k, x);
    }
  }

  /** A sequence sorted by non-increasing count is determined by its per-count
      subsequences: the stable ranking of a list is unique. */
  lemma {:induction false} StablyRankedUnique(r1: seq<Resource>, r2: seq<Resource>, key: Resource -> nat)
    requires NonIncreasing(r1, key) && NonIncreasing(r2, key)
    requires forall k :: WithCount(r1, key, k) == WithCount(r2, key, k)
    ensures r1 == r2
    decreases |r1|
  {
    if r1 == [] || r2 == [] {
      if r1 != [] {
        WithCountMembers(r1, key, key(r1[0]), r1[0]);
      }
      if r2 != [] {
        WithCountMembers(r2, key, key(r2[0]), r2[0]);
      }
    } else {
      var m1, m2 := key(r1[0]), key(r2[0]);
      WithCountMembers(r1, key, m1, r1[0]);
      WithCountMembers(r2, key, m1, r1[0]);
      WithCountMembers(r2, key, m2, r2[0]);
      WithCountMembers(r1, key, m2, r2[0]);
      assert m1 == m2;
      assert WithCount(r1, key, m1)[0] == r1[0];
      assert WithCount(r2, key, m1)[0] == r2[0];
      forall k ensures WithCount(r1[1..], key, k) == WithCount(r2[1..], key, k) {
        var h := if m1 == k then [r1[0]] else [];
        var w1, w2 := WithCount(r1[1..], key, k), WithCount(r2[1..], key, k);
        assert WithCount(r1, key, k) == h + w1;
        assert WithCount(r2, key, k) == h + w2;
        assert (h + w1)[|h|..] == w1 && (h + w2)[|h|..] == w2;
      }
      StablyRankedUnique(r1[1..], r2[1..], key);
      assert r1 == [r1[0]] + r1[1..] && r2 == [r2[0]] + r2[1..];
    }
  }

  /** The ranking is the only sequence with the promised shape: whatever is
      sorted by non-increasing count and keeps each count's candidates in input
      order (dropping those meeting none) is `Rank`. */
  lemma RankIsTheStableRanking(s: seq<Resource>, reqs: seq<string>, r: seq<Resource>)
    requires NonIncreasing(r, ByMatchCount(reqs))
    requires forall k :: WithCount(r, ByMatchCount(reqs), k) == if k == 0 then [] else WithCount(s, ByMatchCount(reqs), k)
    ensures r == Rank(s, reqs)
  {
    RankSpec(s, reqs);
    StablyRankedUnique(r, Rank(s, reqs), ByMatchCount(reqs));
  }

  /** `_filter_resources`: the filtering loop, then the stable sort. */
  method FilterResources(resources: seq<Resource>, requirements: seq<string>) returns (ranked: seq<Resource>)
    ensures ranked == Rank(resources, requirements)
    ensures NonIncreasing(ranked, ByMatchCount(requirements))
    ensures forall k :: WithCount(ranked, ByMatchCount(requirements), k) == if k == 0 then [] else WithCount(resources, ByMatchCount(requirements), k)
    ensures forall x :: x in ranked <==> x in resources && Matches(x, requirements)
  {
    var suitable: seq<Resource> := [];
    var i := 0;
    while i < |resources|
      invariant 0 <= i <= |resources|
      invariant suitable == Suitable(resources[..i], requirements)
    {
      var resource := resources[i];
      assert resources[..i + 1][..i] == resources[..i];
      if Matches(resource, requirements) {
        suitable := suitable + [resource];
      }
      i := i + 1;
    }
    assert resources[..i] == resources;
    ranked := SortByCount(suitable, ByMatchCount(requirements));
    RankSpec(resources, requirements);
  }
}
