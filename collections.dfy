/**
 * Python's `list.sort`/`sorted` (stable, by an integer key, ascending or with
 * `reverse=True`), `sorted(set(...))` on integers and first-occurrence de-duplication.
 */
module Collections {
  import opened Wrappers

  predicate SortedBy<T>(s: seq<T>, key: T -> int) {
    forall i, j :: 0 <= i < j < |s| ==> key(s[i]) <= key(s[j])
  }

  predicate StrictlyIncreasing(s: seq<int>) {
    forall i, j :: 0 <= i < j < |s| ==> s[i] < s[j]
  }

  /** Inserts `x` after every element whose key does not exceed `key(x)`. */
  function InsertBy<T>(x: T, s: seq<T>, key: T -> int): (r: seq<T>)
    requires SortedBy(s, key)
    ensures SortedBy(r, key)
    ensures multiset(r) == multiset(s) + multiset{x}
    ensures |r| == |s| + 1
    ensures r[0] == x || (s != [] && r[0] == s[0])
  {
    if s == [] then [x]
    else if key(x) < key(s[0]) then
      ConsSorted(x, s, key);
      [x] + s
    else
      var rest := InsertBy(x, s[1..], key);
      assert s == [s[0]] + s[1..];
      assert key(s[0]) <= key(rest[0]);
      ConsSorted(s[0], rest, key);
      [s[0]] + rest
  }

  /** A sorted sequence stays sorted under a head whose key does not exceed its first. */
  lemma ConsSorted<T>(h: T, s: seq<T>, key: T -> int)
    requires SortedBy(s, key) && (s != [] ==> key(h) <= key(s[0]))
    ensures SortedBy([h] + s, key)
  {
    var r := [h] + s;
    forall i, j | 0 <= i < j < |r| ensures key(r[i]) <= key(r[j]) {
      if i == 0 {
        assert r[j] == s[j - 1];
      } else {
        assert r[i] == s[i - 1] && r[j] == s[j - 1];
      }
    }
  }

  /** Python's stable `sorted(s, key=key)`: later elements go after earlier ones with an equal key. */
  function SortBy<T>(s: seq<T>, key: T -> int): (r: seq<T>)
    ensures SortedBy(r, key)
    ensures multiset(r) == multiset(s)
    ensures |r| == |s|
  {
    if s == [] then []
    else
      var r := InsertBy(s[|s| - 1], SortBy(s[..|s| - 1], key), key);
      assert s == s[..|s| - 1] + [s[|s| - 1]];
      r
  }

  /** Sorting keeps exactly the elements it was given. */
  lemma SortByMembers<T>(s: seq<T>, key: T -> int)
    ensures forall x :: x in SortBy(s, key) <==> x in s
  {
    var r := SortBy(s, key);
    forall x ensures x in r <==> x in s {
      assert x in r <==> x in multiset(r);
      assert x in s <==> x in multiset(s);
    }
  }

  /** Sorting an already sorted sequence changes nothing. */
  lemma {:induction false} SortBySorted<T>(s: seq<T>, key: T -> int)
    requires SortedBy(s, key)
    ensures SortBy(s, key) == s
  {
    if s != [] {
      var init := s[..|s| - 1];
      var last := s[|s| - 1];
      SortedParts(s, key);
      SortBySorted(init, key);
      InsertLast(last, init, key);
      SnocParts(s);
    }
  }

  /** A sorted sequence is its sorted front followed by a last element no smaller than any of it. */
  lemma SortedParts<T>(s: seq<T>, key: T -> int)
    requires s != [] && SortedBy(s, key)
    ensures SortedBy(s[..|s| - 1], key)
    ensures forall i :: 0 <= i < |s| - 1 ==> key(s[i]) <= key(s[|s| - 1])
  {
  }

  lemma SnocParts<T>(s: seq<T>)
    requires s != []
    ensures s[..|s| - 1] + [s[|s| - 1]] == s
  {
  }

  lemma {:induction false} InsertLast<T>(x: T, s: seq<T>, key: T -> int)
    requires SortedBy(s, key)
    requires forall i :: 0 <= i < |s| ==> key(s[i]) <= key(x)
    ensures InsertBy(x, s, key) == s + [x]
  {
    if s != [] {
      assert SortedBy(s[1..], key);
      InsertLast(x, s[1..], key);
      assert [s[0]] + (s[1..] + [x]) == s + [x];
    }
  }

  /** The elements of `s` whose key is `v`, in their order in `s`. */
  function WithKey<T>(s: seq<T>, key: T -> int, v: int): (r: seq<T>)
    ensures |r| <= |s|
  {
    if s == [] then []
    else (if key(s[0]) == v then [s[0]] else []) + WithKey(s[1..], key, v)
  }

  lemma {:induction false} WithKeyAppend<T>(a: seq<T>, b: seq<T>, key: T -> int, v: int)
    ensures WithKey(a + b, key, v) == WithKey(a, key, v) + WithKey(b, key, v)
    decreases |a|
  {
    if a != [] {
      var h := if key(a[0]) == v then [a[0]] else [];
      assert (a + b)[0] == a[0];
      assert (a + b)[1..] == a[1..] + b;
      WithKeyAppend(a[1..], b, key, v);
      assert WithKey(a + b, key, v) == h + (WithKey(a[1..], key, v) + WithKey(b, key, v));
    } else {
      assert a + b == b;
    }
  }

  lemma {:induction false} WithKeyNone<T>(s: seq<T>, key: T -> int, v: int)
    requires forall i :: 0 <= i < |s| ==> key(s[i]) > v
    ensures WithKey(s, key, v) == []
    decreases |s|
  {
    if s != [] {
      WithKeyNone(s[1..], key, v);
    }
  }

  /** The filter looks at the head, then at the rest. */
  lemma WithKeyCons<T>(h: T, s: seq<T>, key: T -> int, v: int)
    ensures WithKey([h] + s, key, v) == (if key(h) == v then [h] else []) + WithKey(s, key, v)
  {
    assert ([h] + s)[0] == h;
    assert ([h] + s)[1..] == s;
  }

  /** Putting one element in front of two sequences keeps their filters `tail` apart. */
  lemma WithKeyConsStep<T>(h0: T, r: seq<T>, s: seq<T>, tail: seq<T>, key: T -> int, v: int)
    requires WithKey(r, key, v) == WithKey(s, key, v) + tail
    ensures WithKey([h0] + r, key, v) == WithKey([h0] + s, key, v) + tail
  {
    WithKeyCons(h0, r, key, v);
    WithKeyCons(h0, s, key, v);
    var h := if key(h0) == v then [h0] else [];
    assert h + (WithKey(s, key, v) + tail) == (h + WithKey(s, key, v)) + tail;
  }

  lemma HeadTail<T>(s: seq<T>)
    requires s != []
    ensures [s[0]] + s[1..] == s
  {
  }

  /** Inserting `x` puts it after every element with its key. */
  lemma {:induction false} InsertByStable<T>(x: T, s: seq<T>, key: T -> int, v: int)
    requires SortedBy(s, key)
    ensures WithKey(InsertBy(x, s, key), key, v) == WithKey(s, key, v) + (if key(x) == v then [x] else [])
    decreases |s|
  {
    var tail := if key(x) == v then [x] else [];
    if s == [] {
      WithKeyCons(x, [], key, v);
      assert [x] + [] == [x];
    } else if key(x) < key(s[0]) {
      WithKeyCons(x, s, key, v);
      if key(x) == v {
        WithKeyNone(s, key, v);
      }
    } else {
      var rest := InsertBy(x, s[1..], key);
      assert InsertBy(x, s, key) == [s[0]] + rest;
      assert SortedBy(s[1..], key);
      InsertByStable(x, s[1..], key, v);
      WithKeyConsStep(s[0], rest, s[1..], tail, key, v);
      HeadTail(s);
    }
  }

  /**
   * `SortBy` is stable: the elements with any one key come out in the order they went in,
   * as with Python's `list.sort` (also with `reverse=True`, which the model writes as a
   * negated key).
   */
  lemma {:induction false} SortByStable<T>(s: seq<T>, key: T -> int, v: int)
    ensures WithKey(SortBy(s, key), key, v) == WithKey(s, key, v)
    decreases |s|
  {
    if s != [] {
      var init := s[..|s| - 1];
      var last := s[|s| - 1];
      var sorted := SortBy(init, key);
      var tail := if key(last) == v then [last] else [];
      assert WithKey(SortBy(s, key), key, v) == WithKey(sorted, key, v) + tail by {
        assert SortBy(s, key) == InsertBy(last, sorted, key);
        InsertByStable(last, sorted, key, v);
      }
      assert WithKey(s, key, v) == WithKey(init, key, v) + tail by {
        assert s == init + [last];
        WithKeyAppend(init, [last], key, v);
        assert [last][1..] == [];
      }
      SortByStable(init, key, v);
    }
  }

  /** Drops each element equal to its predecessor. */
  function Squeeze(s: seq<int>): (r: seq<int>)
    requires forall i, j :: 0 <= i < j < |s| ==> s[i] <= s[j]
    ensures StrictlyIncreasing(r)
    ensures forall x :: x in r <==> x in s
    ensures r != [] && s != [] ==> r[0] == s[0]
  {
    if |s| <= 1 then s
    else if s[0] == s[1] then Squeeze(s[1..])
    else
      var rest := Squeeze(s[1..]);
      assert forall x :: x in rest ==> s[0] < x by {
        forall x | x in rest ensures s[0] < x {
          var k :| 0 <= k < |s[1..]| && s[1..][k] == x;
          assert s[k + 1] == x;
        }
      }
      [s[0]] + rest
  }

  /** `sorted(set(s))` on integers: the distinct values of `s` in increasing order. */
  function SortedUnique(s: seq<int>): (r: seq<int>)
    ensures StrictlyIncreasing(r)
    ensures forall x :: x in r <==> x in s
  {
    var sorted := SortBy(s, x => x);
    assert forall x :: x in sorted <==> x in multiset(sorted);
    assert forall x :: x in s <==> x in multiset(s);
    Squeeze(sorted)
  }

  /** The position of the first element of `s` that satisfies `p`, if any. */
  function FirstWhere<T>(s: seq<T>, p: T -> bool): (r: Option<nat>)
    ensures r.Some? ==> r.value < |s| && p(s[r.value])
    ensures r.Some? ==> forall j :: 0 <= j < r.value ==> !p(s[j])
    ensures r.None? <==> forall j :: 0 <= j < |s| ==> !p(s[j])
  {
    if s == [] then None
    else if p(s[0]) then Some(0)
    else
      var r := FirstWhere(s[1..], p);
      assert forall j :: 0 < j < |s| ==> s[j] == s[1..][j - 1];
      match r
      case Some(k) => Some(k + 1)
      case None => None
  }

  /** The position of the first occurrence of `x` in `s`. */
  function FirstIndex<T(==)>(s: seq<T>, x: T): (k: nat)
    requires x in s
    ensures k < |s| && s[k] == x && x !in s[..k]
  {
    if s[0] == x then 0 else 1 + FirstIndex(s[1..], x)
  }

  predicate Distinct<T(==)>(s: seq<T>) {
    forall i, j :: 0 <= i < j < |s| ==> s[i] != s[j]
  }

  /**
   * `[x for x in s if not (x in seen or seen.add(x))]`: the elements of `s` not in
   * `seen`, each once.
   */
  function DedupeFrom<T(==)>(s: seq<T>, seen: set<T>): (r: seq<T>)
    ensures Distinct(r)
    ensures forall i :: 0 <= i < |r| ==> r[i] in s && r[i] !in seen
    ensures forall i :: 0 <= i < |s| && s[i] !in seen ==> s[i] in r
  {
    if s == [] then []
    else if s[0] in seen then DedupeFrom(s[1..], seen)
    else
      var rest := DedupeFrom(s[1..], seen + {s[0]});
      assert forall i :: 0 <= i < |rest| ==> rest[i] != s[0] && rest[i] in s[1..];
      [s[0]] + rest
  }

  predicate FirstOrder<T(==)>(s: seq<T>, r: seq<T>)
    requires forall i :: 0 <= i < |r| ==> r[i] in s
  {
    forall i, j :: 0 <= i < j < |r| ==> FirstIndex(s, r[i]) < FirstIndex(s, r[j])
  }

  /** Putting a new element in front of both sequences keeps first-occurrence order. */
  lemma ShiftOrder<T>(h: T, t: seq<T>, r: seq<T>)
    requires forall i :: 0 <= i < |r| ==> r[i] in t && r[i] != h
    requires FirstOrder(t, r)
    ensures FirstOrder([h] + t, r) && FirstOrder([h] + t, [h] + r)
  {
    var s := [h] + t;
    assert s[1..] == t;
    assert forall i :: 0 <= i < |r| ==> FirstIndex(s, r[i]) == 1 + FirstIndex(t, r[i]);
    var hr := [h] + r;
    assert FirstIndex(s, h) == 0;
    forall i, j | 0 <= i < j < |hr| ensures FirstIndex(s, hr[i]) < FirstIndex(s, hr[j]) {
      assert hr[j] == r[j - 1];
      if i > 0 {
        assert hr[i] == r[i - 1];
      }
    }
  }

  /** The kept elements appear in the order of their first occurrence in `s`. */
  lemma {:induction false} DedupeFromOrder<T>(s: seq<T>, seen: set<T>)
    ensures FirstOrder(s, DedupeFrom(s, seen))
  {
    if s != [] {
      var h, t := s[0], s[1..];
      assert s == [h] + t;
      var seen' := if h in seen then seen else seen + {h};
      DedupeFromOrder(t, seen');
      ShiftOrder(h, t, DedupeFrom(t, seen'));
    }
  }

  /** First-occurrence de-duplication: distinct, the same elements, first-occurrence order. */
  function Dedupe<T(==)>(s: seq<T>): (r: seq<T>)
    ensures Distinct(r)
    ensures forall i :: 0 <= i < |r| ==> r[i] in s
    ensures forall i :: 0 <= i < |s| ==> s[i] in r
    ensures forall i, j :: 0 <= i < j < |r| ==> FirstIndex(s, r[i]) < FirstIndex(s, r[j])
  {
    DedupeFromOrder(s, {});
    DedupeFrom(s, {})
  }

  /** A sequence is empty exactly when nothing is a member of it. */
  lemma EmptyIffNoMember<T>(s: seq<T>)
    ensures s == [] <==> forall x :: x !in s
  {
    if s != [] {
      assert s[0] in s;
    }
  }

  /** `[f(x) for x in s]` */
  function MapSeq<A, B>(f: A -> B, s: seq<A>): (r: seq<B>)
    ensures |r| == |s| && forall k :: 0 <= k < |s| ==> r[k] == f(s[k])
  {
    seq(|s|, k requires 0 <= k < |s| => f(s[k]))
  }

  /** Mapping one more element appends its image. */
  lemma MapSnoc<A, B>(f: A -> B, s: seq<A>, i: nat)
    requires i < |s|
    ensures MapSeq(f, s[..i + 1]) == MapSeq(f, s[..i]) + [f(s[i])]
  {
  }

  /** A prefix one longer ends in the next element. */
  lemma TakeSnoc<T>(s: seq<T>, k: nat)
    requires k < |s|
    ensures s[..k + 1] == s[..k] + [s[k]]
  {
  }

  /** The prefix of full length is the sequence. */
  lemma TakeAll<T>(s: seq<T>, k: nat)
    requires k == |s|
    ensures s[..k] == s
  {
  }

  /** Appending to the list under one key of a map that agrees with `before` makes it agree with `after`. */
  lemma AppendAt<K, V>(m: map<K, seq<V>>, key: K, x: V, before: K -> seq<V>, after: K -> seq<V>)
    requires key in m
    requires forall c :: c in m ==> m[c] == before(c)
    requires after(key) == before(key) + [x]
    requires forall c :: c in m && c != key ==> after(c) == before(c)
    ensures var m' := m[key := m[key] + [x]];
      (forall c :: c in m' <==> c in m) && forall c :: c in m' ==> m'[c] == after(c)
  {
  }

  /** `[x for x in s if p(x)]` */
  function Filter<T(!new)>(s: seq<T>, p: T -> bool): (r: seq<T>)
    ensures |r| <= |s|
    ensures forall x :: x in r <==> x in s && p(x)
  {
    if s == [] then []
    else
      var rest := Filter(s[..|s| - 1], p);
      assert forall x :: x in s <==> x in s[..|s| - 1] || x == s[|s| - 1];
      rest + (if p(s[|s| - 1]) then [s[|s| - 1]] else [])
  }

  /** Filtering keeps the order of what it keeps. */
  lemma {:induction false} FilterSorted<T(!new)>(s: seq<T>, p: T -> bool, key: T -> int)
    requires SortedBy(s, key)
    ensures SortedBy(Filter(s, p), key)
  {
    if s != [] {
      var init := s[..|s| - 1];
      assert SortedBy(init, key);
      FilterSorted(init, p, key);
      var rest := Filter(init, p);
      forall i | 0 <= i < |rest| ensures key(rest[i]) <= key(s[|s| - 1]) {
        assert rest[i] in init;
      }
    }
  }

  /** The values present in `xs`, in order: a filter that also maps. */
  function Somes<T>(xs: seq<Option<T>>): seq<T> {
    if xs == [] then []
    else Somes(xs[..|xs| - 1]) + match xs[|xs| - 1] { case Some(x) => [x] case None => [] }
  }

  /** One more entry appends its value, if it has one. */
  lemma SomesSnoc<T>(xs: seq<Option<T>>, e: Option<T>)
    ensures Somes(xs + [e]) == Somes(xs) + match e { case Some(x) => [x] case None => [] }
  {
    assert (xs + [e])[..|xs|] == xs;
  }

  /** One more step of a filter-map loop: the mapped prefix grows by one, the kept values by at most one. */
  lemma FilterMapStep<A, B>(f: A -> Option<B>, s: seq<A>, i: nat, xs: seq<Option<B>>)
    requires i < |s| && xs == MapSeq(f, s[..i])
    ensures xs + [f(s[i])] == MapSeq(f, s[..i + 1])
    ensures Somes(xs + [f(s[i])]) == Somes(xs) + (if f(s[i]).Some? then [f(s[i]).value] else [])
  {
    MapSnoc(f, s, i);
    SomesSnoc(xs, f(s[i]));
  }

  /** Everything kept was present in `xs`. */
  lemma {:induction false} SomesFrom<T>(xs: seq<Option<T>>)
    ensures forall i :: 0 <= i < |Somes(xs)| ==> Some(Somes(xs)[i]) in xs
    ensures |Somes(xs)| <= |xs|
  {
    if xs != [] {
      SomesFrom(xs[..|xs| - 1]);
    }
  }

  /** Every present entry is kept. */
  lemma {:induction false} SomesHas<T>(xs: seq<Option<T>>, j: nat)
    requires j < |xs| && xs[j].Some?
    ensures xs[j].value in Somes(xs)
  {
    var init := xs[..|xs| - 1];
    if j < |xs| - 1 {
      SomesHas(init, j);
    }
  }

  /** Mapping with `g` and keeping what `f` reads back gives the sequence when `f` undoes `g`. */
  lemma {:induction false} SomesInverse<A, B>(f: B -> Option<A>, g: A -> B, s: seq<A>)
    requires forall x :: x in s ==> f(g(x)) == Some(x)
    ensures Somes(MapSeq(f, MapSeq(g, s))) == s
  {
    if s != [] {
      var init := s[..|s| - 1];
      SomesInverse(f, g, init);
      var xs := MapSeq(f, MapSeq(g, s));
      assert xs[..|xs| - 1] == MapSeq(f, MapSeq(g, init));
      assert xs[|xs| - 1] == Some(s[|s| - 1]);
      assert s == init + [s[|s| - 1]];
    }
  }

  /** Nothing is kept exactly when every entry is absent. */
  lemma {:induction false} SomesEmpty<T>(xs: seq<Option<T>>)
    ensures Somes(xs) == [] <==> forall i :: 0 <= i < |xs| ==> xs[i].None?
  {
    if xs != [] {
      var init := xs[..|xs| - 1];
      SomesEmpty(init);
      assert forall i :: 0 <= i < |init| ==> init[i] == xs[i];
    }
  }

  /** `b"".join(chunks)` */
  function Concat<T>(chunks: seq<seq<T>>): seq<T> {
    if chunks == [] then [] else Concat(chunks[..|chunks| - 1]) + chunks[|chunks| - 1]
  }

  /** Joining one more chunk appends it. */
  lemma ConcatSnoc<T>(chunks: seq<seq<T>>, c: seq<T>)
    ensures Concat(chunks + [c]) == Concat(chunks) + c
  {
    assert (chunks + [c])[..|chunks|] == chunks;
  }

  /** Run every step in order: all the values when every step succeeds, otherwise the first error. */
  function Collect<T, E>(rs: seq<Result<T, E>>): Result<seq<T>, E> {
    if rs == [] then Ok([])
    else
      var prev := Collect(rs[..|rs| - 1]);
      var last := rs[|rs| - 1];
      if prev.Err? then prev
      else if last.Err? then Err(last.error)
      else Ok(prev.value + [last.value])
  }

  /** Collecting one more step: an earlier failure stays, a failing step is the failure, otherwise its value is appended. */
  lemma CollectSnoc<T, E>(rs: seq<Result<T, E>>, i: nat)
    requires i < |rs|
    ensures Collect(rs[..i + 1]) ==
      if Collect(rs[..i]).Err? then Collect(rs[..i])
      else if rs[i].Err? then Err(rs[i].error)
      else Ok(Collect(rs[..i]).value + [rs[i].value])
  {
    assert rs[..i + 1][..i] == rs[..i];
  }

  /** The first failing step after a run of successes is the result of collecting everything. */
  lemma {:induction false} CollectStops<T, E>(rs: seq<Result<T, E>>, i: nat)
    requires i < |rs| && Collect(rs[..i]).Ok? && rs[i].Err?
    ensures Collect(rs) == Err(rs[i].error)
  {
    if i == |rs| - 1 {
      CollectSnoc(rs, i);
      assert rs[..i + 1] == rs;
    } else {
      var init := rs[..|rs| - 1];
      assert init[..i] == rs[..i];
      CollectStops(init, i);
    }
  }

  /** Collecting succeeds exactly when every step does, keeping the values in order; a failure is the first failing step's. */
  lemma {:induction false} CollectMeaning<T, E>(rs: seq<Result<T, E>>)
    ensures Collect(rs).Ok? <==> forall i :: 0 <= i < |rs| ==> rs[i].Ok?
    ensures Collect(rs).Ok? ==>
      |Collect(rs).value| == |rs| && forall i :: 0 <= i < |rs| ==> rs[i] == Ok(Collect(rs).value[i])
    ensures Collect(rs).Err? ==>
      exists i :: 0 <= i < |rs| && rs[i] == Err(Collect(rs).error) && forall j :: 0 <= j < i ==> rs[j].Ok?
  {
    if rs != [] {
      var init := rs[..|rs| - 1];
      CollectMeaning(init);
      assert forall i :: 0 <= i < |init| ==> init[i] == rs[i];
    }
  }
}
